// The settings table of the current generation: its creation and column migrations, the row codec,
// the read and the upsert (db/dbsettings.go).
module DbSettings {
  import opened Wrappers
  import opened Clock
  import opened Settings
  import opened DbCore
  import opened DbMigration
  import opened DbSQLite
  import TagJson

  const TagsMigrationId: string := "settings_table_add_tags_column"
  const SearchTextMigrationId: string := "settings_table_add_search_text_column"
  const EnableLimitMigrationId: string := "settings_table_add_enable_limit_column"
  const LimitCountMigrationId: string := "settings_table_add_limit_count_column"

  /** The ids the settings migrations record in the ledger. */
  const SettingsMigrationIds: set<string> :=
    {TagsMigrationId, SearchTextMigrationId, EnableLimitMigrationId, LimitCountMigrationId}

  /**
   * One run of a gate that checks for its first column only and then adds two columns in one
   * statement batch. The statements run one after the other without a transaction, so when the
   * second column already exists the first stays added and the program panics.
   */
  function PairGate(schema: Schema, ledger: set<string>, table: string, first: string, second: string): (r: Migrated)
    ensures r.ledger == ledger && r.schema.Keys == schema.Keys
    ensures r.exit.Normal? <==> ColumnIn(schema, table, first) || (table in schema && second !in schema[table] + [first])
    ensures r.exit.Normal? ==> ColumnIn(r.schema, table, first) && (ColumnIn(schema, table, first) || ColumnIn(r.schema, table, second))
    ensures ColumnIn(schema, table, first) ==> r.schema == schema
    ensures table in schema && !ColumnIn(schema, table, first) && second !in schema[table] + [first] ==>
      r.schema == schema[table := schema[table] + [first, second]]
    ensures forall t | t in schema && t != table :: r.schema[t] == schema[t]
  {
    if ColumnIn(schema, table, first) then Migrated(schema, ledger, Normal)
    else if table !in schema then Migrated(schema, ledger, Panic(NoSuchTable))
    else
      var added := schema[table := schema[table] + [first]];
      if second in added[table] then Migrated(added, ledger, Panic(DuplicateColumn))
      else
        assert schema[table] + [first] + [second] == schema[table] + [first, second];
        Migrated(added[table := added[table] + [second]], ledger, Normal)
  }

  /** A pair gate that ends normally leaves nothing for a second run to do. */
  lemma PairGateIdempotent(schema: Schema, ledger: set<string>, table: string, first: string, second: string)
    ensures var m := PairGate(schema, ledger, table, first, second);
      m.exit.Normal? ==> PairGate(m.schema, m.ledger, table, first, second) == m
  {
  }

  /** columnExists on the first column, then ALTER TABLE for both, stopping at the first failure. */
  method PairColumnGate(d: Database, table: string, first: string, second: string) returns (e: Exit)
    modifies d`schema
    ensures Migrated(d.schema, d.ledger, e) == PairGate(old(d.schema), d.ledger, table, first, second)
  {
    var present := ColumnExists(d, table, first);
    if present {
      return Normal;
    }
    e := AddColumn(d, table, first);
    if e.Panic? {
      return;
    }
    e := AddColumn(d, table, second);
  }

  /** addSettingsFilterWipAndNonWip */
  method AddSettingsFilterWipAndNonWip(d: Database) returns (e: Exit)
    modifies d`schema
    ensures Migrated(d.schema, d.ledger, e) == PairGate(old(d.schema), d.ledger, SettingsTable, "filter_wip", "filter_non_wip")
  {
    e := PairColumnGate(d, SettingsTable, "filter_wip", "filter_non_wip");
  }

  /** addSettingsPlannedAndNonPlanned */
  method AddSettingsPlannedAndNonPlanned(d: Database) returns (e: Exit)
    modifies d`schema
    ensures Migrated(d.schema, d.ledger, e) == PairGate(old(d.schema), d.ledger, SettingsTable, "planned", "non_planned")
  {
    e := PairColumnGate(d, SettingsTable, "planned", "non_planned");
  }

  /** settingsTableAddTagsColumn */
  method SettingsTableAddTagsColumn(d: Database) returns (e: Exit)
    modifies d`schema, d`ledger
    ensures Migrated(d.schema, d.ledger, e) == LedgerGate(old(d.schema), old(d.ledger), TagsMigrationId, SettingsTable, "tags")
  {
    e := LedgerGatedAddColumn(d, TagsMigrationId, SettingsTable, "tags");
  }

  /** settingsTableAddSearchTextColumn */
  method SettingsTableAddSearchTextColumn(d: Database) returns (e: Exit)
    modifies d`schema, d`ledger
    ensures Migrated(d.schema, d.ledger, e) == LedgerGate(old(d.schema), old(d.ledger), SearchTextMigrationId, SettingsTable, "search_text")
  {
    e := LedgerGatedAddColumn(d, SearchTextMigrationId, SettingsTable, "search_text");
  }

  /** What settingsTableAddLimitColumns does: the enable_limit migration, then the limit_count one. */
  function LimitGates(schema: Schema, ledger: set<string>): Migrated {
    var m := LedgerGate(schema, ledger, EnableLimitMigrationId, SettingsTable, "enable_limit");
    if m.exit.Panic? then m else LedgerGate(m.schema, m.ledger, LimitCountMigrationId, SettingsTable, "limit_count")
  }

  /** settingsTableAddLimitColumns */
  method SettingsTableAddLimitColumns(d: Database) returns (e: Exit)
    modifies d`schema, d`ledger
    ensures Migrated(d.schema, d.ledger, e) == LimitGates(old(d.schema), old(d.ledger))
  {
    e := LedgerGatedAddColumn(d, EnableLimitMigrationId, SettingsTable, "enable_limit");
    if e.Panic? {
      return;
    }
    e := LedgerGatedAddColumn(d, LimitCountMigrationId, SettingsTable, "limit_count");
  }

  /** The columnExists gates of initSettings, in order; the first panic stops the sequence. */
  function ColumnGates(schema: Schema, ledger: set<string>): (r: Migrated)
    ensures r.ledger == ledger && r.schema.Keys == schema.Keys
    ensures forall t | t in schema && t != SettingsTable :: r.schema[t] == schema[t]
  {
    var m1 := Gate(schema, ledger, SettingsTable, "completed_from");
    if m1.exit.Panic? then m1 else
    var m2 := Gate(m1.schema, m1.ledger, SettingsTable, "completed_to");
    if m2.exit.Panic? then m2 else
    var m3 := Gate(m2.schema, m2.ledger, SettingsTable, "filter_incompleted");
    if m3.exit.Panic? then m3 else
    var m4 := PairGate(m3.schema, m3.ledger, SettingsTable, "filter_wip", "filter_non_wip");
    if m4.exit.Panic? then m4 else
    PairGate(m4.schema, m4.ledger, SettingsTable, "planned", "non_planned")
  }

  /** The ledger-gated migrations of initSettings, in order; the first panic stops the sequence. */
  function LedgerGates(schema: Schema, ledger: set<string>): (r: Migrated) {
    var m6 := LedgerGate(schema, ledger, TagsMigrationId, SettingsTable, "tags");
    if m6.exit.Panic? then m6 else
    var m7 := LedgerGate(m6.schema, m6.ledger, SearchTextMigrationId, SettingsTable, "search_text");
    if m7.exit.Panic? then m7 else
    LimitGates(m7.schema, m7.ledger)
  }

  /** The gates of initSettings after its CREATE TABLE: the columnExists ones, then the ledger-gated ones. */
  function SettingsGates(schema: Schema, ledger: set<string>): (r: Migrated) {
    var m := ColumnGates(schema, ledger);
    if m.exit.Panic? then m else LedgerGates(m.schema, m.ledger)
  }

  /** What initSettings does to the schema and the ledger. */
  function InitSettingsEffect(schema: Schema, ledger: set<string>): Migrated {
    SettingsGates(TableCreated(schema, SettingsTable, SettingsCreateColumns), ledger)
  }

  /** initSettings: CREATE TABLE IF NOT EXISTS, then the column migrations in the order of the source. */
  method InitSettings(d: Database) returns (e: Exit)
    modifies d`schema, d`ledger
    ensures Migrated(d.schema, d.ledger, e) == InitSettingsEffect(old(d.schema), old(d.ledger))
  {
    CreateTableIfNotExists(d, SettingsTable, SettingsCreateColumns);
    e := AddSettingsCompletedFrom(d);
    if e.Panic? { return; }
    e := AddSettingsCompletedTo(d);
    if e.Panic? { return; }
    e := AddSettingsFilterIncomplete(d);
    if e.Panic? { return; }
    e := AddSettingsFilterWipAndNonWip(d);
    if e.Panic? { return; }
    e := AddSettingsPlannedAndNonPlanned(d);
    if e.Panic? { return; }
    e := SettingsTableAddTagsColumn(d);
    if e.Panic? { return; }
    e := SettingsTableAddSearchTextColumn(d);
    if e.Panic? { return; }
    e := SettingsTableAddLimitColumns(d);
  }

  /** On a settings table that has the five gated columns, the columnExists gates change nothing. */
  lemma ColumnGatesOnCurrent(schema: Schema, ledger: set<string>)
    requires SettingsTable in schema
    requires forall c :: c in ["completed_from", "completed_to", "filter_incompleted", "filter_wip", "planned"] ==> c in schema[SettingsTable]
    ensures ColumnGates(schema, ledger) == Migrated(schema, ledger, Normal)
  {
    assert ColumnIn(schema, SettingsTable, "completed_from") && ColumnIn(schema, SettingsTable, "completed_to");
    assert ColumnIn(schema, SettingsTable, "filter_incompleted");
    assert ColumnIn(schema, SettingsTable, "filter_wip") && ColumnIn(schema, SettingsTable, "planned");
  }

  /** On the seven-column table, the columnExists gates add the four flag columns in pairs. */
  lemma ColumnGatesOnLegacy(schema: Schema, ledger: set<string>)
    requires SettingsTable in schema && schema[SettingsTable] == LegacySettingsColumns
    ensures ColumnGates(schema, ledger) ==
      Migrated(schema[SettingsTable := LegacySettingsColumns + ["filter_wip", "filter_non_wip", "planned", "non_planned"]], ledger, Normal)
  {
    var m3 := Gate(schema, ledger, SettingsTable, "filter_incompleted");
    assert ColumnIn(schema, SettingsTable, "completed_from") && ColumnIn(schema, SettingsTable, "completed_to");
    assert ColumnIn(schema, SettingsTable, "filter_incompleted");
    var c4 := LegacySettingsColumns + ["filter_wip", "filter_non_wip"];
    assert "filter_wip" !in LegacySettingsColumns && "filter_non_wip" !in LegacySettingsColumns + ["filter_wip"];
    var m4 := PairGate(schema, ledger, SettingsTable, "filter_wip", "filter_non_wip");
    assert m4.schema == schema[SettingsTable := c4];
    assert "planned" !in c4 && "non_planned" !in c4 + ["planned"];
    MapTwice(schema, SettingsTable, c4, c4 + ["planned", "non_planned"]);
    assert c4 + ["planned", "non_planned"] == LegacySettingsColumns + ["filter_wip", "filter_non_wip", "planned", "non_planned"];
  }

  /** The four ledger-gated migrations, on a settings table that has none of their columns yet. */
  lemma LedgerGatesAppend(s5: Schema, ledger: set<string>)
    requires HasColumns(s5, MigrationTable, MigrationColumns) && SettingsTable in s5
    requires forall c :: c in ["tags", "search_text", "enable_limit", "limit_count"] ==> c !in s5[SettingsTable]
    requires ledger !! SettingsMigrationIds
    ensures LedgerGates(s5, ledger) ==
      Migrated(s5[SettingsTable := s5[SettingsTable] + ["tags", "search_text", "enable_limit", "limit_count"]],
               ledger + SettingsMigrationIds, Normal)
  {
    assert SettingsTable != MigrationTable;
    var c5 := s5[SettingsTable];
    var c6 := c5 + ["tags"];
    var c7 := c6 + ["search_text"];
    var c8 := c7 + ["enable_limit"];
    var s6 := s5[SettingsTable := c6];
    var s7 := s6[SettingsTable := c7];
    var s8 := s7[SettingsTable := c8];
    LedgerGateAdds(s5, ledger, TagsMigrationId, SettingsTable, "tags");
    LedgerGateAdds(s6, ledger + {TagsMigrationId}, SearchTextMigrationId, SettingsTable, "search_text");
    LedgerGateAdds(s7, ledger + {TagsMigrationId} + {SearchTextMigrationId}, EnableLimitMigrationId, SettingsTable, "enable_limit");
    LedgerGateAdds(s8, ledger + {TagsMigrationId} + {SearchTextMigrationId} + {EnableLimitMigrationId},
                   LimitCountMigrationId, SettingsTable, "limit_count");
    assert c8 + ["limit_count"] == c5 + ["tags", "search_text", "enable_limit", "limit_count"];
    assert s8[SettingsTable := c8 + ["limit_count"]] ==
      s5[SettingsTable := c5 + ["tags", "search_text", "enable_limit", "limit_count"]];
    assert ledger + {TagsMigrationId} + {SearchTextMigrationId} + {EnableLimitMigrationId} + {LimitCountMigrationId} ==
      ledger + SettingsMigrationIds;
  }

  /** With all four ids recorded, the ledger-gated migrations change nothing. */
  lemma LedgerGatesSettled(schema: Schema, ledger: set<string>)
    requires HasColumns(schema, MigrationTable, ["id"]) && SettingsMigrationIds <= ledger
    ensures LedgerGates(schema, ledger) == Migrated(schema, ledger, Normal)
  {
    assert TagsMigrationId in SettingsMigrationIds && SearchTextMigrationId in SettingsMigrationIds;
    assert EnableLimitMigrationId in SettingsMigrationIds && LimitCountMigrationId in SettingsMigrationIds;
  }

  /**
   * initSettings in two halves: once the columnExists gates leave a settings table that lacks the
   * four ledger-gated columns, the ledger-gated migrations append those four and record their ids.
   */
  lemma EffectInHalves(schema: Schema, ledger: set<string>, s5: Schema)
    requires HasColumns(s5, MigrationTable, MigrationColumns) && ledger !! SettingsMigrationIds
    requires ColumnGates(TableCreated(schema, SettingsTable, SettingsCreateColumns), ledger) == Migrated(s5, ledger, Normal)
    requires SettingsTable in s5
    requires forall c :: c in ["tags", "search_text", "enable_limit", "limit_count"] ==> c !in s5[SettingsTable]
    ensures InitSettingsEffect(schema, ledger) ==
      Migrated(s5[SettingsTable := s5[SettingsTable] + ["tags", "search_text", "enable_limit", "limit_count"]],
               ledger + SettingsMigrationIds, Normal)
  {
    GatesInHalves(TableCreated(schema, SettingsTable, SettingsCreateColumns), ledger, Migrated(s5, ledger, Normal));
    LedgerGatesAppend(s5, ledger);
  }

  /** Once the columnExists gates end normally, the ledger-gated migrations decide the rest. */
  lemma GatesInHalves(s: Schema, ledger: set<string>, m5: Migrated)
    requires ColumnGates(s, ledger) == m5 && m5.exit.Normal?
    ensures SettingsGates(s, ledger) == LedgerGates(m5.schema, m5.ledger)
  {
  }

  lemma MapTwice<K, V>(m: map<K, V>, k: K, v: V, w: V)
    ensures m[k := v][k := w] == m[k := w]
  {
  }

  /** Replacing another table's columns keeps the ledger table. */
  lemma LedgerKept(schema: Schema, table: string, cols: seq<string>)
    requires table != MigrationTable
    ensures HasColumns(schema[table := cols], MigrationTable, MigrationColumns) == HasColumns(schema, MigrationTable, MigrationColumns)
  {
  }

  /** None of the seven-column generation's or the CREATE TABLE's columns is one the ledger migrations add. */
  lemma LateColumnsAreNew()
    ensures forall c :: c in ["tags", "search_text", "enable_limit", "limit_count"] ==> c !in SettingsCreateColumns
    ensures forall c :: c in ["tags", "search_text", "enable_limit", "limit_count"] ==>
      c !in LegacySettingsColumns + ["filter_wip", "filter_non_wip", "planned", "non_planned"]
  {
  }

  /** On a store with a ledger and no settings table, initSettings builds the full table and records its four migrations. */
  lemma InitSettingsOnNewStore(schema: Schema, ledger: set<string>)
    requires HasColumns(schema, MigrationTable, MigrationColumns) && SettingsTable !in schema
    requires ledger !! SettingsMigrationIds
    ensures InitSettingsEffect(schema, ledger) ==
      Migrated(schema[SettingsTable := SettingsColumns], ledger + SettingsMigrationIds, Normal)
    ensures HasColumns(InitSettingsEffect(schema, ledger).schema, SettingsTable, SettingsColumns)
  {
    var s1 := schema[SettingsTable := SettingsCreateColumns];
    assert TableCreated(schema, SettingsTable, SettingsCreateColumns) == s1;
    FiveGatedColumns();
    ColumnGatesOnCurrent(s1, ledger);
    LateColumnsAreNew();
    LedgerKept(schema, SettingsTable, SettingsCreateColumns);
    EffectInHalves(schema, ledger, s1);
    CurrentColumns();
    MapTwice(schema, SettingsTable, SettingsCreateColumns, SettingsColumns);
  }

  /** The gated columns appear in the CREATE TABLE and in every current table. */
  lemma FiveGatedColumns()
    ensures forall c :: c in ["completed_from", "completed_to", "filter_incompleted", "filter_wip", "planned"] ==>
      c in SettingsCreateColumns && c in SettingsColumns
  {
  }

  /** The CREATE TABLE columns and the four ledger-gated ones are the columns of the codec. */
  lemma CurrentColumns()
    ensures SettingsCreateColumns + ["tags", "search_text", "enable_limit", "limit_count"] == SettingsColumns
  {
  }

  /** The upgraded seven-column table holds every column of the codec. */
  lemma UpgradedColumns(c5: seq<string>, c9: seq<string>)
    requires c5 == LegacySettingsColumns + ["filter_wip", "filter_non_wip", "planned", "non_planned"]
    requires c9 == c5 + ["tags", "search_text", "enable_limit", "limit_count"]
    ensures c9 == LegacySettingsColumns + ["filter_wip", "filter_non_wip", "planned", "non_planned",
                                           "tags", "search_text", "enable_limit", "limit_count"]
    ensures forall c :: c in SettingsColumns ==> c in c9
  {
  }

  /**
   * On a store of the seven-column generation (ledger present, none of the four migrations
   * recorded), initSettings upgrades the table to every column the current codec reads.
   */
  lemma InitSettingsUpgradesLegacy(schema: Schema, ledger: set<string>)
    requires HasColumns(schema, MigrationTable, MigrationColumns)
    requires SettingsTable in schema && schema[SettingsTable] == LegacySettingsColumns
    requires ledger !! SettingsMigrationIds
    ensures InitSettingsEffect(schema, ledger) ==
      Migrated(schema[SettingsTable := LegacySettingsColumns + ["filter_wip", "filter_non_wip", "planned", "non_planned",
                                                                "tags", "search_text", "enable_limit", "limit_count"]],
               ledger + SettingsMigrationIds, Normal)
    ensures HasColumns(InitSettingsEffect(schema, ledger).schema, SettingsTable, SettingsColumns)
  {
    var c5 := LegacySettingsColumns + ["filter_wip", "filter_non_wip", "planned", "non_planned"];
    var s5 := schema[SettingsTable := c5];
    assert TableCreated(schema, SettingsTable, SettingsCreateColumns) == schema;
    ColumnGatesOnLegacy(schema, ledger);
    LateColumnsAreNew();
    LedgerKept(schema, SettingsTable, c5);
    EffectInHalves(schema, ledger, s5);
    var c9 := c5 + ["tags", "search_text", "enable_limit", "limit_count"];
    MapTwice(schema, SettingsTable, c5, c9);
    UpgradedColumns(c5, c9);
  }

  /** On a store it has already initialised, initSettings changes nothing. */
  lemma InitSettingsSettled(schema: Schema, ledger: set<string>)
    requires HasColumns(schema, MigrationTable, ["id"]) && HasColumns(schema, SettingsTable, SettingsColumns)
    requires SettingsMigrationIds <= ledger
    ensures InitSettingsEffect(schema, ledger) == Migrated(schema, ledger, Normal)
  {
    FiveGatedColumns();
    ColumnGatesOnCurrent(schema, ledger);
    LedgerGatesSettled(schema, ledger);
  }

  /** initSettings twice does what it does once. */
  lemma InitSettingsIdempotent(schema: Schema, ledger: set<string>)
    requires HasColumns(schema, MigrationTable, MigrationColumns) && SettingsTable !in schema
    requires ledger !! SettingsMigrationIds
    ensures var m := InitSettingsEffect(schema, ledger); InitSettingsEffect(m.schema, m.ledger) == m
  {
    InitSettingsOnNewStore(schema, ledger);
    var m := InitSettingsEffect(schema, ledger);
    assert SettingsTable != MigrationTable;
    assert HasColumns(m.schema, MigrationTable, ["id"]);
    InitSettingsSettled(m.schema, m.ledger);
  }

  /** Without a ledger table, initSettings panics (at the latest at the first ledger-gated migration). */
  lemma InitSettingsNeedsLedger(schema: Schema, ledger: set<string>)
    requires !HasColumns(schema, MigrationTable, ["id"])
    ensures InitSettingsEffect(schema, ledger).exit.Panic?
  {
    assert SettingsTable != MigrationTable;
    var s1 := TableCreated(schema, SettingsTable, SettingsCreateColumns);
    var m := ColumnGates(s1, ledger);
    assert !HasColumns(m.schema, MigrationTable, ["id"]);
  }

  /** The row SaveSettings writes: dates as day text (the zero date as its own text), tags as JSON. */
  function EncodeSettings(s: Settings): SettingsRow {
    var q := s.tasksQuery;
    SettingsRow(q.filterCompleted, q.filterIncompleted, q.sortColumn, q.sortDirection,
                DateText(q.completedFrom), DateText(q.completedTo),
                q.filterWip, q.filterNonWip, q.planned, q.nonPlanned,
                TagJson.Encode(q.tags), q.searchText, q.enableLimit, q.limitCount)
  }

  /** How FindSettings reads the tags column: empty text is no tags, other text must be a JSON list. */
  function TagsFromText(text: string): (r: Option<seq<string>>)
    ensures text == "" ==> r == Some([])
    ensures text != "" ==> r == TagJson.Decode(text)
  {
    if text == "" then Some([]) else TagJson.Decode(text)
  }

  /** The settings FindSettings builds from a stored row; unreadable dates or tags are an error. */
  function DecodeSettings(id: string, row: SettingsRow): (r: Result<Settings, DbError>)
    ensures r.Ok? <==> DateFromText(row.completedFrom).Some? && DateFromText(row.completedTo).Some? && TagsFromText(row.tags).Some?
    ensures DateFromText(row.completedFrom).None? ==> r == Err(Malformed("completed_from"))
    ensures DateFromText(row.completedFrom).Some? && DateFromText(row.completedTo).None? ==> r == Err(Malformed("completed_to"))
    ensures r.Ok? ==> r.value.id == id
    ensures r.Ok? ==> var q := r.value.tasksQuery;
      q.filterCompleted == row.filterCompleted && q.filterIncompleted == row.filterIncompleted && q.sortColumn == row.activeSortColumn
      && q.sortDirection == row.activeSortDirection && q.filterWip == row.filterWip && q.filterNonWip == row.filterNonWip
      && q.planned == row.planned && q.nonPlanned == row.nonPlanned && q.searchText == row.searchText
      && q.enableLimit == row.enableLimit && q.limitCount == row.limitCount
      && Some(q.completedFrom) == DateFromText(row.completedFrom) && Some(q.completedTo) == DateFromText(row.completedTo)
      && Some(q.tags) == TagsFromText(row.tags)
  {
    match DateFromText(row.completedFrom)
    case None => Err(Malformed("completed_from"))
    case Some(from) =>
      match DateFromText(row.completedTo)
      case None => Err(Malformed("completed_to"))
      case Some(to) =>
        match TagsFromText(row.tags)
        case None => Err(Malformed("tags"))
        case Some(tags) =>
          Ok(Settings(id, TasksQuery(row.filterCompleted, row.filterIncompleted, row.activeSortColumn, row.activeSortDirection,
                                     from, to, row.filterWip, row.filterNonWip, row.planned, row.nonPlanned,
                                     tags, row.searchText, row.enableLimit, row.limitCount)))
  }

  /** Settings come back from their row unchanged, except that the two dates keep only their day. */
  lemma SettingsRoundTrip(s: Settings)
    ensures DecodeSettings(s.id, EncodeSettings(s)) ==
      Ok(s.(tasksQuery := s.tasksQuery.(completedFrom := Midnight(s.tasksQuery.completedFrom),
                                        completedTo := Midnight(s.tasksQuery.completedTo))))
  {
    DateRoundTrip(s.tasksQuery.completedFrom);
    DateRoundTrip(s.tasksQuery.completedTo);
    TagJson.DecodeEncode(s.tasksQuery.tags);
    if s.tasksQuery.tags == [] {
      assert TagJson.Encode([]) == "[]";
    } else {
      assert TagJson.Encode(s.tasksQuery.tags)[0] == '[';
    }
  }

  /** Settings whose dates are midnights are a fixed point of a save and a find. */
  lemma SettingsRoundTripExact(s: Settings)
    requires Midnight(s.tasksQuery.completedFrom) == s.tasksQuery.completedFrom
    requires Midnight(s.tasksQuery.completedTo) == s.tasksQuery.completedTo
    ensures DecodeSettings(s.id, EncodeSettings(s)) == Ok(s)
  {
    SettingsRoundTrip(s);
  }

  /**
   * A row the seven-column upsert inserted, every other column at its DEFAULT, reads with the
   * seven columns' values, the limits on at 10, and nothing else set.
   */
  lemma LegacyRowReads(s: Settings)
    ensures DecodeSettings(s.id, LegacyEncode(s, DefaultSettingsRow)) ==
      Ok(Settings(s.id, ZeroQuery.(filterCompleted := s.tasksQuery.filterCompleted,
                                   filterIncompleted := s.tasksQuery.filterIncompleted,
                                   sortColumn := s.tasksQuery.sortColumn, sortDirection := s.tasksQuery.sortDirection,
                                   completedFrom := Midnight(s.tasksQuery.completedFrom),
                                   completedTo := Midnight(s.tasksQuery.completedTo),
                                   enableLimit := true, limitCount := 10)))
  {
    DateRoundTrip(s.tasksQuery.completedFrom);
    DateRoundTrip(s.tasksQuery.completedTo);
  }

  /** The columns of the current codec; a store missing any of them fails the statement. */
  predicate SettingsReady(schema: Schema) {
    HasColumns(schema, SettingsTable, SettingsColumns)
  }

  /** FindSettings: NotFound for a missing row, an error for unreadable text, the decoded settings otherwise. */
  method FindSettings(d: Database, settingsId: string) returns (r: Result<Settings, DbError>)
    ensures !SettingsReady(d.schema) ==> r == Err(SchemaError(SettingsTable))
    ensures SettingsReady(d.schema) && settingsId !in d.settings ==> r == Err(NotFound)
    ensures SettingsReady(d.schema) && settingsId in d.settings ==> r == DecodeSettings(settingsId, d.settings[settingsId])
  {
    if !SettingsReady(d.schema) {
      return Err(SchemaError(SettingsTable));
    }
    if settingsId !in d.settings {
      return Err(NotFound);
    }
    r := DecodeSettings(settingsId, d.settings[settingsId]);
  }

  /** SaveSettings: an upsert that writes every column, so the stored row depends on the settings alone. */
  method SaveSettings(d: Database, s: Settings) returns (r: Outcome<DbError>)
    modifies d`settings
    ensures r.Pass? <==> SettingsReady(d.schema)
    ensures r.Fail? ==> r.error == SchemaError(SettingsTable) && d.settings == old(d.settings)
    ensures r.Pass? ==> d.settings == old(d.settings)[s.id := EncodeSettings(s)]
  {
    if !SettingsReady(d.schema) {
      return Fail(SchemaError(SettingsTable));
    }
    d.settings := d.settings[s.id := EncodeSettings(s)];
    return Pass;
  }

  /** A save followed by a find of the same id gives the saved settings, dates at day granularity; other ids keep their rows. */
  method SaveThenFind(d: Database, s: Settings, other: string) returns (r: Result<Settings, DbError>)
    requires SettingsReady(d.schema) && other != s.id
    modifies d`settings
    ensures r == Ok(s.(tasksQuery := s.tasksQuery.(completedFrom := Midnight(s.tasksQuery.completedFrom),
                                                   completedTo := Midnight(s.tasksQuery.completedTo))))
    ensures other in old(d.settings) ==> other in d.settings && d.settings[other] == old(d.settings)[other]
  {
    var saved := SaveSettings(d, s);
    r := FindSettings(d, s.id);
    SettingsRoundTrip(s);
  }
}
