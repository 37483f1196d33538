// The migration ledger: a table of ids of the one-shot schema changes already applied (db/migration.go).
module DbMigration {
  import opened DbCore

  /** initMigration */
  method InitMigration(d: Database)
    modifies d`schema
    ensures d.schema == if MigrationTable in old(d.schema) then old(d.schema) else old(d.schema)[MigrationTable := MigrationColumns]
  {
    CreateTableIfNotExists(d, MigrationTable, MigrationColumns);
  }

  /** MigrationExists: a query on the ledger; it panics when the ledger table is missing. */
  method MigrationExists(d: Database, id: string) returns (e: Exit, found: bool)
    ensures e == if HasColumns(d.schema, MigrationTable, ["id"]) then Normal else Panic(NoSuchTable)
    ensures e.Normal? ==> found == (id in d.ledger)
  {
    if !HasColumns(d.schema, MigrationTable, ["id"]) {
      return Panic(NoSuchTable), false;
    }
    return Normal, id in d.ledger;
  }

  /** RecordMigration: an insert keyed by the id; a missing table or a duplicate id panics. */
  method RecordMigration(d: Database, id: string) returns (e: Exit)
    modifies d`ledger
    ensures e == if !HasColumns(d.schema, MigrationTable, MigrationColumns) then Panic(NoSuchTable)
                 else if id in old(d.ledger) then Panic(UniqueViolation) else Normal
    ensures d.ledger == if e.Normal? then old(d.ledger) + {id} else old(d.ledger)
  {
    if !HasColumns(d.schema, MigrationTable, MigrationColumns) {
      return Panic(NoSuchTable);
    }
    if id in d.ledger {
      return Panic(UniqueViolation);
    }
    d.ledger := d.ledger + {id};
    return Normal;
  }

  /**
   * One run of a ledger-gated column migration: a migration already in the ledger does nothing;
   * otherwise the column is added and the id recorded. A missing ledger table, a missing table or
   * an existing column panics.
   */
  function LedgerGate(schema: Schema, ledger: set<string>, id: string, table: string, column: string): (r: Migrated)
    ensures r.exit.Normal? <==>
      (HasColumns(schema, MigrationTable, ["id"]) &&
       (id in ledger || (table in schema && column !in schema[table] && HasColumns(r.schema, MigrationTable, MigrationColumns))))
    ensures r.exit.Normal? ==> id in r.ledger
    ensures r.ledger == ledger || r.ledger == ledger + {id}
    ensures id !in ledger && r.exit.Normal? ==> r.schema == schema[table := schema[table] + [column]] && r.ledger == ledger + {id}
    ensures id in ledger || r.exit.Panic? ==> r.ledger == ledger
  {
    if !HasColumns(schema, MigrationTable, ["id"]) then Migrated(schema, ledger, Panic(NoSuchTable))
    else if id in ledger then Migrated(schema, ledger, Normal)
    else if table !in schema then Migrated(schema, ledger, Panic(NoSuchTable))
    else if column in schema[table] then Migrated(schema, ledger, Panic(DuplicateColumn))
    else
      var added := schema[table := schema[table] + [column]];
      if !HasColumns(added, MigrationTable, MigrationColumns) then Migrated(added, ledger, Panic(NoSuchTable))
      else Migrated(added, ledger + {id}, Normal)
  }

  /** The migration runs at most once: after a normal run its id is recorded and a second run changes nothing. */
  lemma LedgerGateOnce(schema: Schema, ledger: set<string>, id: string, table: string, column: string)
    ensures var m := LedgerGate(schema, ledger, id, table, column);
      m.exit.Normal? ==> id in m.ledger && LedgerGate(m.schema, m.ledger, id, table, column) == m
  {
    var m := LedgerGate(schema, ledger, id, table, column);
    if m.exit.Normal? && id !in ledger {
      assert MigrationTable in m.schema && forall c :: c in ["id"] ==> c in m.schema[MigrationTable];
    }
  }

  /** A ledger-gated migration not yet recorded, on a table that lacks its column, adds the column and records its id. */
  lemma LedgerGateAdds(schema: Schema, ledger: set<string>, id: string, table: string, column: string)
    requires HasColumns(schema, MigrationTable, MigrationColumns) && table != MigrationTable
    requires table in schema && column !in schema[table] && id !in ledger
    ensures LedgerGate(schema, ledger, id, table, column) ==
      Migrated(schema[table := schema[table] + [column]], ledger + {id}, Normal)
    ensures HasColumns(schema[table := schema[table] + [column]], MigrationTable, MigrationColumns)
  {
  }

  /** The shape of addValueColumn and the settings column migrations: ALTER TABLE behind a ledger id. */
  method LedgerGatedAddColumn(d: Database, id: string, table: string, column: string) returns (e: Exit)
    modifies d`schema, d`ledger
    ensures Migrated(d.schema, d.ledger, e) == LedgerGate(old(d.schema), old(d.ledger), id, table, column)
  {
    var found;
    e, found := MigrationExists(d, id);
    if e.Panic? || found {
      return;
    }
    e := AddColumn(d, table, column);
    if e.Panic? {
      return;
    }
    e := RecordMigration(d, id);
  }
}
