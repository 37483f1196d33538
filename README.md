# priotasks, modelled in Dafny

priotasks is a personal task list served over HTTP. Tasks carry a title, content, priority, impact, cost and fun estimates, wip and planned flags, tags and a completion time. They live in an SQLite store. The store's schema grows through column migrations. Some migrations are gated on `PRAGMA table_info` and some on a ledger of migration ids. The user's filter and sort choices are kept in a settings row. This project models, in Dafny, how that core behaves and proves properties about it:

- the task and card values;
- the store as a state machine: the schema, the migration ledger, tasks, the tag catalogue, task-tag links and settings;
- the query compiler behind the task list;
- the service rules;
- the CSV record codec;
- the two form handlers.

Each Go source file is one Dafny module:

| Dafny file | Go source |
|---|---|
| `tasks.dfy` | models/tasks.go |
| `cards.dfy` | models/cards.go |
| `settings.dfy` | models/settings.go |
| `db_core.dfy` | the database state shared by the db package |
| `db_migration.dfy` | db/migration.go |
| `db_sqlite.dfy` | db/dbsqlite.go |
| `db_tasks.dfy`, `db_query.dfy`, `db_find.dfy` | db/dbtasks.go |
| `db_tags.dfy` | db/tags.go |
| `db_settings.dfy` | db/dbsettings.go |
| `db_cards.dfy` | db/db.go |
| `svc_user.dfy` | services/userService.go |
| `svc_tasks.dfy` | services/tasksService.go |
| `svc_cards.dfy` | services/cardsService.go |
| `svc_migration.dfy` | services/migration.go |
| `csv.dfy` | csv/csv.go |
| `handlers_user.dfy` | handlers/userHandlers.go |
| `handlers_tasks.dfy` | handlers/tasksHandlers.go |

Conventions of the model:

- **Time.** An instant is a whole number of seconds since Go's zero time, 0001-01-01 UTC, which was a Monday. `models.NOT_COMPLETED` is 0. Time and calendar arithmetic are in UTC (`Clock`); the source computes its midnights in the local time zone (listed under "Left out").
- **Effects as parameters.** The current time, and the UUID a new task receives, are parameters of the operations that read them.
- **The store.** It is one object, `DbCore.Database`. Its fields are:
  - the columns of each table;
  - the set of recorded migration ids;
  - the task rows;
  - the tag catalogue;
  - the TasksTags links;
  - the settings rows.

  The foreign keys of TasksTags hold as the object's invariant, and the store enforces them.
- **Statements.** A statement on a table or column that does not exist fails as it does in SQLite. Each method states its new state as a function of the old one.
- **Migrations.** Each migration and initialisation step is an imperative method. It is proved equal to a pure function over the schema and ledger, which returns a `Migrated` value (schema, ledger, exit). A `panic` or `log.Fatal` is an `Exit.Panic` result. The lemmas about that function state how each step behaves on a new store, on a store of an older generation, and on a store it has already initialised.
- **The task-list query.** `FindTasks` is modelled twice:
  - as the statement text and argument list it builds (`DbQuery`), proved to have one argument per `?` placeholder;
  - as the rows that text selects and the order it asks for (`DbFind`).
- **Library stand-ins.** A few small modules replace the Go libraries the core uses:
  - `Strconv`: `Atoi` and `Itoa` on 64-bit ints.
  - `Strs`: `strings.Index`, `ReplaceAll` and `CutPrefix`.
  - `Clock`: the time and date text. The instant's text is its decimal number of seconds, standing in for `2006-01-02 15:04:05`. The date text is its decimal day number, standing in for `2006-01-02`.
  - `TagJson`: `encoding/json` on a list of tag names, as a concrete codec escaping `"` and `\`.
  - `Sorting`: the in-place filter and `slices.SortFunc`.
  - `Wrappers`: `Option`, `Result` and `Outcome`.

  Each codec stand-in is proved to round-trip. None of these modules stands for code of the repository.
- **Text.** A Dafny `string` stands for the bytes of a Go string, one character per byte. Go's slicing (`content[:64]`) counts bytes, and so does the model; rune boundaries are not modelled.
- **Settings query.** `TasksQuery` is reconstructed from the fields the settings codec, the query compiler and the filter handler read. Its sort columns include the six that the task-list ordering names beyond `models/settings.go` (impact, wip, planned, cost, value, fun).
- **Settings record.** `models/settings.go:52-61` declares `Settings` with flat fields `FilterCompleted`, `ActiveSortColumn` and `ActiveSortDirection`. The store, the services and the handlers all use the form with a `TasksQuery` field, so the model's `Settings` is `Settings(id, tasksQuery)`, and `IsSorted` reads `tasksQuery.sortColumn` and `tasksQuery.sortDirection`.
- **The settings lookup.** `FindUserSettings` is modelled twice, as written and corrected (see "Findings"). `SetCompletedFilter`, `ApplyPreparedQuery` and `PostFilterName` each come in both forms too: the members with the `AsWritten` suffix model the source as it stands, the others the intended program.

## Model

| member | source | states |
|---|---|---|
| Tasks.StrToTaskPriority | models/tasks.go:41-48 | a failed Atoi gives Medium and reports the failure; otherwise the parsed value |
| Tasks.StrToImpact | models/tasks.go:88-95 | a failed Atoi gives Moderate and reports the failure; otherwise the parsed value |
| Tasks.StrToEnum | models/tasks.go:114-121 | a failed Atoi gives 0 and reports the failure; otherwise the parsed value |
| Tasks.ConversionsReadItoa | models/tasks.go:41-121 | each conversion reads the decimal text of any int back without failure |
| Tasks.Reduce | models/tasks.go:65-76 | never raises; a priority above Low and at most Urgent drops by exactly one; anything else is kept |
| Tasks.ReduceReachesLow | models/tasks.go:65-76 | three reductions take every enum priority to Low, and Low is a fixed point |
| Tasks.CutAtChar | models/tasks.go:216-228 | one cut leaves a prefix free of the character, ending right before its first occurrence |
| Tasks.TitleFromContent | models/tasks.go:209-230 | a prefix of the content of at most 64 bytes (one character per byte), holding no '\n' or '\r'; a shorter title stops exactly at a line break |
| Tasks.ShortLineIsItsOwnTitle | models/tasks.go:209-230 | a line of at most 64 bytes (one character per byte) is its own title |
| Tasks.Complete | models/tasks.go:275-279 | completed and updated both set to now, nothing else changed; completed when now is not the zero time |
| Tasks.Uncomplete | models/tasks.go:281-285 | not completed, updated set to now, nothing else changed |
| Tasks.AsNewTask | models/tasks.go:232-239 | a new id and creation time; an empty title is derived from the content, a set one is kept; nothing else changes |
| Tasks.Update | models/tasks.go:241-269 | id and created kept, updated is now, every other field taken from the change (title derived when empty); the old completion time is kept only when both sides are completed |
| Tasks.UpdateCompletion | models/tasks.go:248-251 | the result is completed exactly when the change is; an existing completion time is never moved |
| Tasks.UpdateIdempotent | models/tasks.go:241-269 | applying the same change twice equals applying it once |
| Tasks.EmptyTaskIsEmpty | models/tasks.go:322-334 | EMPTY_TASK is empty whatever its id and times; an empty task is not completed |
| Cards.StrToTaskPriority | models/cards.go:26-33 | a failed Atoi gives Medium with an error; otherwise the parsed value |
| Cards.TitleFromContent | models/cards.go:58-64 | the first min(64, length) bytes of the content, line breaks included |
| Cards.Create | models/cards.go:66-80 | a fresh id, created and updated now, not completed; content and priority from the prototype; an empty title derived from the content |
| Cards.Update | models/cards.go:82-96 | id, created and completion stay with the stored card, updated is now; title, content and priority come from the change |
| Cards.Complete | models/cards.go:102-106 | completed and updated set to now, nothing else changed |
| Cards.Uncomplete | models/cards.go:108-112 | not completed, updated set to now, nothing else changed |
| Cards.UpdateKeepsCompletion | models/cards.go:66-96 | an edit never changes whether a card is completed; a created card is never completed |
| Settings.ColumnFromString | models/settings.go:16-24 | text that is not a number gives ColumnUndefined; otherwise the parsed number |
| Settings.DirectionFromString | models/settings.go:42-50 | text that is not a number gives DirectionUndefined; otherwise the parsed number |
| Settings.FromStringOfItoa | models/settings.go:16-50 | both conversions read back the decimal text of any number |
| Settings.Flip | models/settings.go:34-40 | the result is Asc exactly when the input is Desc, and is always Asc or Desc |
| Settings.FlipTwice | models/settings.go:34-40 | flipping twice gives the input back exactly when it is Desc or Asc |
| DbTags.AddTagsTable | db/tags.go:20-55 | a missing ledger panics and changes nothing; a recorded "add_tags_support" changes nothing; otherwise both tables are created if absent (existing ones kept) and the id is recorded |
| DbTags.SaveTag | db/tags.go:57-70 | a plain insert: an id already in the catalog is a constraint failure and nothing changes; otherwise the tag is added with its creation time |
| DbTags.AddTagToTask | db/tags.go:72-85 | succeeds exactly when the link is new and both the task and the tag exist (foreign keys); only then is the link added |
| DbTags.DeleteAllTagsFromTask | db/tags.go:87-98 | removes every link of the task and keeps every other link |
| DbTags.DeleteTagFromTask | db/tags.go:100-123 | removes exactly that link; an absent link gives ErrNotFound and changes nothing |
| DbTags.TaskTags | db/tags.go:125-150 | the tags linked to the task, each once, as a multiset; an unknown task gives an empty result, not an error |
| DbTags.TasksTags | db/tags.go:152-190 | an empty request gives the empty map; the keys are exactly the requested tasks with a link; each entry holds that task's tags as a multiset |
| DbTags.Tags | db/tags.go:192-216 | every catalogued tag once, ordered by creation time, newest first |
| DbTasks.AddTasksWipColumn | db/dbtasks.go:61-68 | the column gate for wip: added only when missing, a missing table panics |
| DbTasks.AddTasksPlannedColumn | db/dbtasks.go:70-77 | the column gate for planned |
| DbTasks.AddTasksCostColumn | db/dbtasks.go:79-86 | the column gate for cost |
| DbTasks.AddTasksImpactColumn | db/dbtasks.go:88-95 | the column gate for impact |
| DbTasks.AddTasksFunColumn | db/dbtasks.go:97-104 | the column gate for fun |
| DbTasks.AddValueColumn | db/dbtasks.go:49-59 | the value column behind the ledger id "task_table_add_value_column": added and recorded once; a recorded id does nothing |
| DbTasks.InitTasks | db/dbtasks.go:19-47 | CREATE TABLE IF NOT EXISTS, then the six gates in source order, the first panic ending the run |
| DbTasks.InitTasksOnNewStore | db/dbtasks.go:19-47 | on a store with a ledger and no tasks table: the created columns plus value and fun, and the value migration recorded |
| DbTasks.InitTasksSettled | db/dbtasks.go:19-47 | on an initialised store nothing changes |
| DbTasks.InitTasksIdempotent | db/dbtasks.go:19-47 | running it twice is the same as running it once |
| DbTasks.InitTasksNeedsLedger | db/dbtasks.go:49-51 | without the ledger table the value migration panics |
| DbTasks.ScanTask | db/dbtasks.go:106-149 | the task keeps the row's id and has no tags; flags are set exactly when the column holds 1 |
| DbTasks.ScanEncodeTask | db/dbtasks.go:223-261 | a saved task reads back as itself, tags aside |
| DbTasks.EncodeScanTask | db/dbtasks.go:130-131 | a row whose flags are 0 or 1 survives a read and a save; any other flag value reads as false |
| DbTasks.AllTasks | db/dbtasks.go:151-166 | every stored task exactly once, each as its row reads; a missing table is an error |
| DbTasks.FindTask | db/dbtasks.go:168-180 | the task as its row reads, or ErrNotFound for an absent id |
| DbTasks.SaveTask | db/dbtasks.go:223-261 | an upsert keyed by id writing all other columns; no other row changes |
| DbTasks.DeleteTask | db/dbtasks.go:182-213 | on success the task and all its links go together; an absent id gives ErrNotFound and the rollback leaves tasks and links as they were |
| DbTasks.DeleteAllTasks | db/dbtasks.go:215-221 | empties the tasks table without touching TasksTags, which the foreign keys allow only when no task has a tag |
| DbQuery.SortColumnName | db/dbtasks.go:320-341 | each listed column names its own column; any other value names created |
| DbQuery.OrderOf | db/dbtasks.go:318-348 | ColumnUndefined adds no ORDER BY; otherwise the named column, descending exactly when the direction is Desc |
| DbQuery.MarksCount | db/dbtasks.go:308-314 | the tag loop's list of n placeholders holds exactly n '?' |
| DbQuery.ClauseMarks | db/dbtasks.go:275-316 | each conjunct text holds exactly as many '?' as values it is given |
| DbQuery.WhereMarks | db/dbtasks.go:275-316 | the WHERE text holds as many '?' as its conjuncts take values in total |
| DbQuery.BindingsFit | db/dbtasks.go:275-316 | every conjunct is appended with exactly as many values as its placeholders |
| DbQuery.StatementFits | db/dbtasks.go:268-348 | the statement's '?' count equals the length of the argument list |
| DbQuery.AppendCompletion | db/dbtasks.go:275-288 | FilterCompleted appends `completed = ?` with NOT_COMPLETED; otherwise each non-zero bound appends its conjunct with the bound and NOT_COMPLETED |
| DbQuery.AppendFilters | db/dbtasks.go:289-316 | one conjunct per set flag in source order, then the tags conjunct when the list is non-empty, each with its own values |
| DbQuery.AppendTagIn | db/dbtasks.go:306-316 | the sub-select with one '?' per tag joined by ", ", and the tags appended to the arguments in order |
| DbQuery.CompileFindTasks | db/dbtasks.go:268-348 | the text and arguments the source builds, whose '?' count equals the argument count |
| DbFind.EvalBindings | db/dbtasks.go:275-316 | reading the arguments positionally gives each conjunct the values the compiler bound to it |
| DbFind.TagsHold | db/dbtasks.go:306-316 | the tags conjunct holds exactly when the task is linked to at least one listed tag (any-of) |
| DbFind.CompletionHolds | db/dbtasks.go:275-288 | the completion conjuncts hold exactly when the row is open (FilterCompleted) or passes each set bound, open rows always passing |
| DbFind.BindingsMeaning | db/dbtasks.go:275-316 | all conjuncts together hold exactly when the row is one the query's fields ask for |
| DbFind.CompiledQueryMeaning | db/dbtasks.go:268-316 | the compiled statement with its arguments accepts exactly the rows the query asks for |
| DbFind.FilterCompletedIgnoresBounds | db/dbtasks.go:275-279 | with FilterCompleted only open rows match, and the date bounds play no part |
| DbFind.BoundsKeepOpenTasks | db/dbtasks.go:280-287 | the date bounds never exclude an open row |
| DbFind.BoundsOnCompletedTasks | db/dbtasks.go:280-287 | a completed row passes exactly when its completion time lies within each non-zero bound |
| DbFind.OpposedFiltersSelectNothing | db/dbtasks.go:275-305 | FilterCompleted with FilterIncompleted, FilterWip with FilterNonWip, or Planned with NonPlanned select no row |
| DbFind.MoreTagsSelectMore | db/dbtasks.go:306-316 | adding a tag to a non-empty list never drops a selected row |
| DbFind.ZeroQuerySelectsAll | db/dbtasks.go:268-316 | the zero query selects every row |
| DbFind.Selected | db/dbtasks.go:353-366 | only stored ids are selected |
| DbFind.SelectIds | db/dbtasks.go:353-366 | the engine's pass yields every selected id exactly once |
| DbFind.OrderIds | db/dbtasks.go:318-348 | a permutation of the selection, ascending or descending by the column as the ORDER BY says |
| DbFind.FindTasks | db/dbtasks.go:268-373 | a missing table is an error; otherwise exactly the selected tasks, each as its row reads, in the requested order |
| DbTasks.ScanAll | db/dbtasks.go:359-366 | one scanned task per result row, in order |
| DbSettings.PairGate | db/dbsettings.go:125-147 | only the settings table changes; the pair is added when the first column is missing and both are new, a clash panics, an existing first column changes nothing |
| DbSettings.PairGateIdempotent | db/dbsettings.go:125-147 | a pair gate that ends normally leaves nothing for a second run to do |
| DbSettings.PairColumnGate | db/dbsettings.go:125-147 | the new schema and exit are those of the pair gate |
| DbSettings.AddSettingsFilterWipAndNonWip | db/dbsettings.go:125-135 | the pair gate on filter_wip and filter_non_wip |
| DbSettings.AddSettingsPlannedAndNonPlanned | db/dbsettings.go:137-147 | the pair gate on planned and non_planned |
| DbSettings.SettingsTableAddTagsColumn | db/dbsettings.go:52-62 | the ledger gate of settings_table_add_tags_column on the tags column |
| DbSettings.SettingsTableAddSearchTextColumn | db/dbsettings.go:64-74 | the ledger gate of settings_table_add_search_text_column on search_text |
| DbSettings.SettingsTableAddLimitColumns | db/dbsettings.go:76-96 | the enable_limit gate, then the limit_count gate, stopping at a panic |
| DbSettings.ColumnGates | db/dbsettings.go:42-46 | the five columnExists gates touch only the settings table and never the ledger |
| DbSettings.InitSettings | db/dbsettings.go:21-50 | the new schema, ledger and exit are those of CREATE TABLE IF NOT EXISTS followed by every gate in order |
| DbSettings.ColumnGatesOnCurrent | db/dbsettings.go:98-147 | on a table that has the five gated columns, the columnExists gates change nothing |
| DbSettings.ColumnGatesOnLegacy | db/dbsettings.go:98-147 | on the seven-column table of the older generation, the gates add exactly the four flag columns |
| DbSettings.LedgerGatesAppend | db/dbsettings.go:52-96 | with none of the four ids recorded, the four columns are appended and the four ids recorded |
| DbSettings.LedgerGatesSettled | db/dbsettings.go:52-96 | with the four ids recorded, the ledger-gated migrations change nothing |
| DbSettings.InitSettingsOnNewStore | db/dbsettings.go:21-96 | on a store without a settings table, the full table is built and its four migrations recorded |
| DbSettings.InitSettingsUpgradesLegacy | db/dbsettings.go:21-96 | a seven-column table is upgraded to hold every column the codec reads |
| DbSettings.InitSettingsSettled | db/dbsettings.go:21-96 | on a store it has already initialised, initSettings changes nothing |
| DbSettings.InitSettingsIdempotent | db/dbsettings.go:21-96 | initSettings twice does what it does once |
| DbSettings.InitSettingsNeedsLedger | db/dbsettings.go:52-96 | without a migration ledger, initSettings panics |
| DbSettings.TagsFromText | db/dbsettings.go:193-198 | empty text is no tags; other text must decode as a JSON list of strings |
| DbSettings.DecodeSettings | db/dbsettings.go:149-200 | every column goes to its field; an unreadable completed_from, then completed_to, then tags is an error |
| DbSettings.SettingsRoundTrip | db/dbsettings.go:149-260 | settings come back from their saved row unchanged, except that the two dates keep only their day |
| DbSettings.SettingsRoundTripExact | db/dbsettings.go:149-260 | settings whose dates are midnights come back exactly |
| DbSettings.LegacyRowReads | db/dbsettings.go:52-96 | a row the seven-column upsert inserted, its other columns at their DEFAULTs, reads with its seven columns, the limits on at 10, and nothing else set |
| DbSettings.FindSettings | db/dbsettings.go:149-200 | a missing column is an error, a missing row is ErrNotFound, a present row is its decoding |
| DbSettings.SaveSettings | db/dbsettings.go:202-260 | the upsert succeeds exactly when the table has its columns, and then stores the encoded row under the id, other rows kept |
| DbSettings.SaveThenFind | db/dbsettings.go:149-260 | a save followed by a find of the same id gives the saved settings at day granularity; other rows are kept |
| DbCore.Database.constructor | db/dbsqlite.go:36-40 | a new database file: no tables, no ledger entries, no rows, foreign keys hold |
| DbCore.TableCreated | db/migration.go:17-22 | the table exists afterwards; an existing table, and so its columns, is left as it is; a new one gets the listed columns |
| DbCore.CreateTableIfNotExists | db/dbsettings.go:23-40 | the new schema is the created one and no row changes |
| DbCore.AddColumn | db/dbsettings.go:55-60 | a missing table or an existing column fails and the schema stays; otherwise the column is appended to the table |
| DbCore.Gate | db/dbsqlite.go:89-114 | only the named table changes and never the ledger; a missing table panics; afterwards the column is present, appended only when it was missing |
| DbCore.GateIdempotent | db/dbsqlite.go:89-114 | a gate that ends normally leaves nothing for a second run to do |
| DbCore.DateRoundTrip | db/dbsettings.go:179-192 | dates saved as day text read back as the midnight of their day; the zero time and empty text read as the zero time |
| DbMigration.InitMigration | db/migration.go:14-26 | the migration table with columns id and time exists afterwards; an existing one is kept |
| DbMigration.MigrationExists | db/migration.go:28-37 | a missing ledger table panics; otherwise the id is found exactly when it is recorded |
| DbMigration.RecordMigration | db/migration.go:39-51 | a missing ledger table or an id already there panics; otherwise the id joins the ledger |
| DbMigration.LedgerGate | db/dbsettings.go:52-62 | a recorded id changes nothing; otherwise the column is added and the id recorded, and any failure panics with the ledger kept |
| DbMigration.LedgerGateOnce | db/dbsettings.go:52-62 | after a normal run the id is recorded and a second run changes nothing |
| DbMigration.LedgerGateAdds | db/dbsettings.go:52-62 | a migration not yet recorded, on a table that lacks its column, adds the column and records its id |
| DbMigration.LedgerGatedAddColumn | db/dbtasks.go:49-59 | the new schema, ledger and exit are those of the ledger gate |
| DbSQLite.ColumnExists | db/dbsqlite.go:64-87 | true exactly when the table exists and lists the column |
| DbSQLite.ColumnGate | db/dbsqlite.go:89-114 | the new schema and exit are those of the gate |
| DbSQLite.AddSettingsCompletedFrom | db/dbsqlite.go:89-96 | the gate on completed_from |
| DbSQLite.AddSettingsCompletedTo | db/dbsqlite.go:98-105 | the gate on completed_to |
| DbSQLite.AddSettingsFilterIncomplete | db/dbsqlite.go:107-114 | the gate on filter_incompleted |
| DbSQLite.LegacyDecode | db/dbsqlite.go:121-159 | the seven columns are read, the other query fields stay zero; the read fails exactly when a date does not parse |
| DbSQLite.LegacyRoundTrip | db/dbsqlite.go:121-198 | what the seven-column code saves it reads back, dates at day granularity |
| DbSQLite.LegacyFindSettings | db/dbsqlite.go:121-159 | a missing column is an error, a missing row ErrNotFound, a present row its seven-column decoding |
| DbSQLite.LegacySaveSettings | db/dbsqlite.go:161-198 | the upsert writes its seven columns over the stored row, or over the column defaults for a new id |
| TagJson.DecodeEncode | db/dbsettings.go:193-233 | every list of tag names comes back unchanged from the JSON text SaveSettings writes |
| TagJson.ReadEscaped | db/dbsettings.go:193-198 | an escaped string body followed by its closing quote reads back as the string and what follows |
| UserService.Stored | db/dbsettings.go:149-200 | ErrNotFound exactly when the table is ready and has no user row; found settings carry the user id |
| UserService.StoredIsFixedPoint | services/userService.go:46-48 | settings read from the store and saved again read back the same |
| UserService.DefaultsRoundTrip | services/userService.go:32-37 | the defaults survive a save and a find exactly |
| UserService.FindUserSettingsAsWritten | services/userService.go:26-44 | on ErrNotFound the defaults are saved, but the zero Settings and no error are returned; other errors are returned with zero Settings |
| UserService.UserSettings | services/userService.go:26-44 | the lookup succeeds exactly when there is a readable user row or none; its settings carry the user id |
| UserService.AfterLookup | services/userService.go:26-44 | the rows after either lookup: on a store without a user row exactly the user row is added and reads as the defaults; otherwise the rows are unchanged |
| UserService.UserSettingsAsWritten | services/userService.go:26-44 | the as-written lookup succeeds exactly when the corrected one does, and differs from it exactly on a store without a user row, where it gives the zero Settings |
| UserService.FindUserSettings | services/userService.go:26-44 | the stored settings, or the defaults saved and returned when there are none; errors other than ErrNotFound are returned and nothing is saved |
| UserService.UserSettingsPersist | services/userService.go:26-44 | after the lookup the store holds exactly the settings it returned |
| UserService.WithFilterCompleted | services/userService.go:21 | only the completed filter of the query changes |
| UserService.SetCompletedFilterAsWritten | services/userService.go:16-44 | a failed lookup is returned and nothing saved; otherwise the looked-up settings are saved with the new flag under their own id, which on a store without a user row is the empty id |
| UserService.AsWrittenMissesUserRow | services/userService.go:16-44 | on every store without a user row, SetCompletedFilter as written leaves the user row at the defaults, whatever the flag |
| UserService.SetCompletedFilter | services/userService.go:16-24 | a failed lookup is returned and nothing saved; otherwise the user's settings are saved with the new flag |
| UserService.SetCompletedFilterReadsBack | services/userService.go:16-24 | the user's settings then read back with the new flag and nothing else changed |
| UserService.FirstFilterChangeAsWritten | services/userService.go:16-44 | on a fresh store the first SetCompletedFilter(false) as written leaves completed tasks hidden |
| UserService.FirstFilterChange | services/userService.go:16-44 | on a fresh store the first SetCompletedFilter(false) reaches the user's settings |
| UserService.ToggledSorting | services/userService.go:50-58 | the new column; its direction flipped when it was already the sort column, Desc otherwise; nothing else changes |
| UserService.ToggleByIsSorted | models/settings.go:59-61 | after toggling a column with the shown direction, IsSorted holds of it ascending exactly when it held of it descending before, and of it descending otherwise |
| UserService.ToggleCycle | services/userService.go:50-58 | a new column starts descending, then turns ascending, then descending again |
| UserService.ToggleTwice | services/userService.go:50-58 | toggling the sort column twice with the shown directions restores the direction |
| UserService.ToggleSorting | services/userService.go:50-58 | one save of the toggled settings, whose error is returned |
| UserService.ThisMonday | services/userService.go:117-124 | a midnight (UTC) that is a Monday, no later than today's midnight and at most six days before it |
| UserService.MondayOffset | services/userService.go:119-123 | the offset lands on a Monday at most six days back |
| UserService.CompletedSince | services/userService.go:71-103 | completed tasks shown, incomplete hidden, sorted by completion, from the given start; nothing else changes |
| UserService.Preset | services/userService.go:70-108 | an unknown name, the reset one included, leaves the reset query |
| UserService.CompletedPresetShape | services/userService.go:70-103 | every completed preset shows completed tasks only, sorted by completion, from a midnight no later than today's |
| UserService.PresetStarts | services/userService.go:71-103 | yesterday and today at midnight, this and last week's Monday, and fourteen days back |
| UserService.ApplyPreparedQuery | services/userService.go:60-115 | with the corrected lookup: a failed lookup is returned; otherwise the preset of the reset query is saved and success returned even when the save fails |
| UserService.ApplyPreparedQueryAsWritten | services/userService.go:26-115 | with the lookup as written: the preset is saved under the looked-up settings' id; on a store without a user row, the preset of the reset zero query goes to the empty id |
| UserHandlers.DateField | handlers/userHandlers.go:54-75 | empty text clears the bound; a parsed day is a midnight |
| UserHandlers.KindOf | handlers/userHandlers.go:46-120 | the unknown case exactly for names outside the switch |
| UserHandlers.ApplyFilter | handlers/userHandlers.go:46-120 | a change is saved exactly when its status is OK; a refused one keeps the query; an unknown name is an internal error; midnight dates stay midnights |
| UserHandlers.CheckboxFilters | handlers/userHandlers.go:47-105 | each checkbox filter is set exactly when its posted value is not empty, and nothing else moves |
| UserHandlers.TagFilter | handlers/userHandlers.go:92-98 | a non-empty tag is appended; an empty one is a bad request that changes nothing |
| UserHandlers.DateFilters | handlers/userHandlers.go:54-75 | a posted day becomes that day's midnight; empty text clears the bound |
| UserHandlers.LimitCountFilter | handlers/userHandlers.go:106-115 | any positive count is taken; zero or a negative one is refused; empty text changes nothing |
| UserHandlers.ApplyFilterIdempotent | handlers/userHandlers.go:46-120 | posting the same value twice is posting it once, for every filter but the tag list |
| UserHandlers.UserSettingsAtMidnight | handlers/userHandlers.go:34-41 | the dates of the user's settings are midnights, whether stored or defaults |
| UserHandlers.UserRowReadsBack | handlers/userHandlers.go:122-127 | user settings with midnight dates read back exactly once saved |
| UserHandlers.FilterChangeReadsBack | handlers/userHandlers.go:122-127 | a saved filter change reads back exactly from the store |
| UserHandlers.PostFilterNameAsWritten | handlers/userHandlers.go:34-135 | with the lookup as written: a failed lookup is an internal error; otherwise the change's status, with the changed settings saved under the looked-up id, the empty id on a store without a user row |
| UserHandlers.PostFilterName | handlers/userHandlers.go:34-135 | with the corrected lookup: a failed lookup is an internal error; otherwise the change's status, with the changed settings saved when the change calls for it |
| TasksService.ListedMeaning | services/tasksService.go:14-31 | a task is listed exactly when it is a stored row as it reads and, when filtering, it is not completed |
| TasksService.OrderMeaning | services/tasksService.go:33-55 | sorted order is ascending or descending by completion, creation or priority as asked, and creation descending for any other column |
| TasksService.ListedTasks | services/tasksService.go:23-31 | filtering every stored task gives, as a multiset, exactly the listed tasks |
| TasksService.FindTasks | services/tasksService.go:14-58 | a store failure is returned; otherwise each listed task exactly once, in the comparator's order |
| TasksService.DeleteTask | services/tasksService.go:60-69 | the store's delete, with its error returned unchanged and its links removed |
| TasksService.DeleteAllTasks | services/tasksService.go:71-80 | the store's delete of every task; it fails while any task still has a tag |
| TasksService.SaveTask | services/tasksService.go:97-104 | the store's upsert of the task's row, its error returned unchanged |
| TasksService.UpdatedRow | services/tasksService.go:82-95 | the row keeps its creation time, is touched now and is completed exactly when the change is |
| TasksService.UpdatedRowIdempotent | services/tasksService.go:82-95 | the same change a second time leaves the row as the first update wrote it |
| TasksService.UpdateTask | services/tasksService.go:82-95 | an unknown id is ErrNotFound and nothing is saved; otherwise the found task, updated, is |
| TasksService.Flipped | services/tasksService.go:106-111 | completion toggles and the task is touched now; nothing else changes |
| TasksService.FlipTwice | services/tasksService.go:106-111 | flipping an open task twice gives it back, touched at the second time |
| TasksService.FlipTask | services/tasksService.go:106-120 | the flipped task is saved; a failed save leaves the store as it was |
| ServiceMigration.Resaved | services/migration.go:19-21 | the same ids after saving every task again |
| ServiceMigration.ResavedReadsTheSame | services/migration.go:19-21 | saving every task again changes no task as it reads |
| ServiceMigration.ResavedKeepsCanonicalRows | services/migration.go:19-21 | rows whose flags are stored as 0 or 1 are rewritten as they were |
| ServiceMigration.ResavedIdempotent | services/migration.go:19-21 | a second pass over the resaved tasks changes nothing |
| ServiceMigration.ResaveAll | services/migration.go:19-21 | after the loop every row is its resave |
| ServiceMigration.MigrationTaskValue | services/migration.go:11-24 | a recorded id changes nothing; otherwise every task is saved again and the id recorded, a failed Tasks() panicking first |
| ServiceMigration.Init | services/migration.go:7-9 | the task-value migration: every task saved again once, then nothing |
| ServiceMigration.InitTwice | services/migration.go:7-24 | two runs of Init: only the first one saves; the second changes nothing |
| CardsService.CardOrderMeaning | services/cardsService.go:32-54 | sorted order is by completion, creation or priority as asked, and creation descending for any other column |
| CardsService.ListedCardsExactly | services/cardsService.go:22-30 | filtering every stored card gives, as a multiset, exactly the incomplete ones |
| CardsService.FindCards | services/cardsService.go:13-57 | each listed card exactly once, in the comparator's order |
| CardsService.CardUpdateIdempotent | services/cardsService.go:59-72 | the same change applied twice gives what it gives once |
| CardsService.UpdateCard | services/cardsService.go:59-72 | an unknown id is ErrNotFound with no save; otherwise the found card, updated, is saved |
| CardsService.SaveCard | services/cardsService.go:74-81 | the store's set |
| CardsService.FlippedCard | services/cardsService.go:83-88 | completion toggles and the card is touched now; nothing else changes |
| CardsService.FlipCardTwice | services/cardsService.go:83-88 | flipping an open card twice gives it back, touched at the second time |
| CardsService.FlipCard | services/cardsService.go:83-95 | the flipped card is saved under its id |
| DbCards.CardKey | db/db.go:19-22 | the card prefix followed by the id |
| DbCards.CardKeyInjective | db/db.go:141-154 | distinct ids never share a key |
| DbCards.CardStore.constructor | db/db.go:24-37 | an empty store |
| DbCards.CardStore.AllCards | db/db.go:44-81 | every stored card once |
| DbCards.CardStore.FindCard | db/db.go:84-113 | the card under the id, or ErrNotFound |
| DbCards.CardStore.SaveCard | db/db.go:141-154 | the card replaces whatever was stored under its id |
| DbCards.CardStore.DeleteAllCards | db/db.go:115-139 | no card is left |
| Csv.NoLiteralEscapeIsAbsence | csv/csv.go:106-109 | the predicate is the absence of a literal backslash-n |
| Csv.WrapHasNoNewline | csv/csv.go:100-104 | wrapped text holds no line break |
| Csv.WrapKeepsSingleLine | csv/csv.go:100-104 | wrapping leaves text alone exactly when it holds no line break |
| Csv.UnwrapAfterWrap | csv/csv.go:100-109 | for all text, unwrapping after wrapping is plain unwrapping: a literal backslash-n comes back as a line break, like a wrapped one |
| Csv.UnwrapShrinks | csv/csv.go:106-109 | unwrapping never lengthens text, and shortens every text holding a literal backslash-n |
| Csv.ContentRoundTrip | csv/csv.go:100-109 | text comes back from wrapping and unwrapping exactly when it holds no literal backslash-n |
| Csv.WrapSpecialSymbols | csv/csv.go:100-104 | content and title are wrapped and hold no line break; nothing else changes; the task is unchanged exactly when both are single lines |
| Csv.UnwrapSpecialSymbols | csv/csv.go:106-109 | the content becomes its unwrapping and nothing else changes; the task is unchanged exactly when the content holds no literal backslash-n |
| Csv.TaskToRec | csv/csv.go:121-133 | seven fields: the id, the wrapped title and content, the three times' text and the priority's decimal text; every one but the id a single line |
| Csv.RecToTask | csv/csv.go:135-166 | an index-out-of-range panic exactly when the record is short and the fields before its end parse; success exactly when the record is long enough and the three times and the priority parse; the fields go where the layout says, the rest stay zero |
| Csv.RecordReadsBack | csv/csv.go:121-166 | every task reads back as its dumped fields, with the title still wrapped and the content unwrapped |
| Csv.RecordRoundTrip | csv/csv.go:121-166 | a task reads back as its dumped fields exactly when its title is one line and its content holds no literal backslash-n |
| TaskHandlers.FormValue | handlers/tasksHandlers.go:109 | the first value of the field, or empty text |
| TaskHandlers.FormTask | handlers/tasksHandlers.go:108-155 | each field from its form value, the fallbacks of the conversions, completed now exactly when checked |
| TaskHandlers.EmptyFormTask | handlers/tasksHandlers.go:108-155 | an empty form gives Medium priority, Moderate impact, cost 0 and nothing set |
| TaskHandlers.TagsOfMeaning | handlers/tasksHandlers.go:137-143 | a tag is chosen exactly when its own field is in the form |
| TaskHandlers.ResolveTaskFromForm | handlers/tasksHandlers.go:108-156 | the form's task, and one tag per field named with the tag prefix |
| Sorting.FilterInPlace | services/tasksService.go:23-31 | the kept prefix of the array is the filter of its old contents, in order |
| Sorting.SortInPlace | services/tasksService.go:33-55 | the prefix is sorted by the key and is a permutation of what it held |

## Left out

- `CalculateValue`, `GetMultiplier` and `ValueAsHumanStr` (models/tasks.go:177-190, 287-320) are float32 arithmetic. A task's value is an opaque field that is stored and read back.
- `Dump`, `Load` and `DumpScheduler` (csv/csv.go:18-98, 168-208) are file I/O and a ticker goroutine. Only the record codec they use is modelled. The quoting of `encoding/csv` is also left out: a record is the list of its fields.
- The card store's badger transactions and JSON encoding (db/db.go) are not modelled. A stored card is the card itself, so the encoding is taken to round-trip. The badger settings functions of that file are not modelled.
- `DbSQLite.Init` (db/dbsqlite.go:29-62) is not modelled. It opens the database file (I/O) and then runs steps that are each modelled: `initTasks` and the seven-column settings table with its three gates. Whether its order of steps works on a new store depends on code generations this snapshot mixes.
- I/O errors, failed transactions and failed commits are not modelled. Every statement fails only as the schema or a constraint makes it fail. Error wrapping with `fmt.Errorf` and all logging are left out.
- The presets of `ApplyPreparedQuery` and `thisMonday` (services/userService.go:73, 80, 93, 123) take midnight in `now.Location()`, the local time zone. The model takes it in UTC; a time-zone offset is not modelled.
- `TagJson.Encode`: a nil tag list is written as `[]`, where `json.Marshal` writes `null`. Both read back as no tags, so only the stored text differs.
- `TasksQuery.Reset` is not shown. `ApplyPreparedQuery` takes it as a parameter, about which nothing is assumed.
- `SaveNewTask`, `CloneTask`, `updateTaskTags`, `ReducePriorityForVisibleTasks` and `RemoveTagFromSettings` are not shown, so they are not modelled.
- The order of Go map iteration and of result rows without `ORDER BY` is not fixed. Where the source depends on it (the form's keys, the rows of `Tasks`, `Tags` and the card store), results are stated as multisets.
- `slices.SortFunc` is not stable. `TasksService.FindTasks`, `CardsService.FindCards` and `DbFind.OrderIds` fix the order up to ties exactly as the comparator or the `ORDER BY` does, and leave ties in any order.
- `DbFind.FindTasks`: the `search_text`, `enable_limit` and `limit_count` settings are stored but not applied to the task list, as in the source.
- `DbTasks.ScanTask`: the instants of a task row are held as integers, so the time-parse failures of `scanNextTask` are not modelled. The comparisons of the fixed-width time text in the statement become integer comparisons. The flag decoding is modelled.
- Column `DEFAULT`s are modelled only for the settings row that an insert of the seven-column generation leaves to them. `filter_completed`, `active_sort_column` and `active_sort_direction` have no `DEFAULT` and would hold NULL in a row that did not name them; no statement of the source writes such a row. Task rows are always written in full.
- `UserHandlers.ApplyFilter`: the form-field names of the limit filters are not in the shown constants, so `filter-limit-enable` and `filter-limit-count` stand in for them.
- `DbTasks.DeleteAllTasks` issues a bare `DELETE FROM tasks`. The tag tests expect the foreign keys of TasksTags to be enforced, so the model lets that statement fail while any task still has a tag.
- HTTP routing, templates, status writes other than the codes `PostFilterName` returns, and the other handler files are not modelled.

## Findings

| source | as written | input that shows it | evidently intended | confidence | as-written member | corrected member |
|---|---|---|---|---|---|---|
| services/userService.go:26-44 | When `FindSettings` reports `ErrNotFound`, the defaults are saved. The zero `Settings` that the failed lookup produced is then returned with a nil error, and its id is "". | A store with the settings table and no user row. `SetCompletedFilter(false)` then saves the zero settings under the empty id. The user's row keeps the defaults, which hide completed tasks. | Return the defaults just saved, so that later changes reach the row with id "UserSettings". | not executed | UserService.FindUserSettingsAsWritten, UserService.SetCompletedFilterAsWritten, UserService.AsWrittenMissesUserRow, UserService.ApplyPreparedQueryAsWritten, UserHandlers.PostFilterNameAsWritten, UserService.FirstFilterChangeAsWritten | UserService.FindUserSettings, UserService.SetCompletedFilter, UserService.SetCompletedFilterReadsBack, UserService.ApplyPreparedQuery, UserHandlers.PostFilterName, UserService.FirstFilterChange |
