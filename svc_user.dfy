// The user's settings as the services see them: the lazily created defaults, the completed
// filter, the sort toggle and the prepared queries (services/userService.go).
module UserService {
  import opened Wrappers
  import opened Strconv
  import opened Clock
  import opened Settings
  import opened DbCore
  import opened DbMigration
  import opened DbSettings

  /** SETTINGS_ID */
  const SettingsId: string := "UserSettings"

  /** The settings a store without a user row gets: the zero query with completed tasks hidden. */
  const DefaultUserSettings: Settings := Settings(SettingsId, ZeroQuery.(filterCompleted := true))

  /** What FindSettings(SettingsId) returns on this schema and these rows. */
  function Stored(schema: Schema, rows: map<string, SettingsRow>): (r: Result<Settings, DbError>)
    ensures r == Err(NotFound) <==> SettingsReady(schema) && SettingsId !in rows
    ensures r.Ok? ==> r.value.id == SettingsId && SettingsId in rows
  {
    if !SettingsReady(schema) then Err(SchemaError(SettingsTable))
    else if SettingsId !in rows then Err(NotFound)
    else DecodeSettings(SettingsId, rows[SettingsId])
  }

  /** Settings read from the store have midnight dates, so saving them again and reading them back changes nothing. */
  lemma StoredIsFixedPoint(schema: Schema, rows: map<string, SettingsRow>)
    requires Stored(schema, rows).Ok?
    ensures Stored(schema, rows[SettingsId := EncodeSettings(Stored(schema, rows).value)]) == Stored(schema, rows)
  {
    var s := Stored(schema, rows).value;
    var row := rows[SettingsId];
    assert Some(s.tasksQuery.completedFrom) == DateFromText(row.completedFrom);
    assert Some(s.tasksQuery.completedTo) == DateFromText(row.completedTo);
    SettingsRoundTripExact(s);
  }

  /** The defaults survive a save and a find exactly. */
  lemma DefaultsRoundTrip()
    ensures DecodeSettings(SettingsId, EncodeSettings(DefaultUserSettings)) == Ok(DefaultUserSettings)
  {
    SettingsRoundTripExact(DefaultUserSettings);
  }

  /** The rows after either form of FindUserSettings: the defaults are saved under SettingsId when there was no user row, and only then. */
  function AfterLookup(schema: Schema, rows: map<string, SettingsRow>): (r: map<string, SettingsRow>)
    ensures Stored(schema, rows) == Err(NotFound) ==>
      r.Keys == rows.Keys + {SettingsId} && Stored(schema, r) == Ok(DefaultUserSettings) && forall id | id in rows :: r[id] == rows[id]
    ensures Stored(schema, rows) != Err(NotFound) ==> r == rows
  {
    DefaultsRoundTrip();
    if Stored(schema, rows) == Err(NotFound) then rows[SettingsId := EncodeSettings(DefaultUserSettings)] else rows
  }

  /** What FindUserSettings as the source has it returns: the corrected result, except the zero Settings (id "") when there was no user row. */
  function UserSettingsAsWritten(schema: Schema, rows: map<string, SettingsRow>): (r: Result<Settings, DbError>)
    ensures r.Ok? <==> UserSettings(schema, rows).Ok?
    ensures r != UserSettings(schema, rows) <==> Stored(schema, rows) == Err(NotFound)
    ensures Stored(schema, rows) == Err(NotFound) ==> r == Ok(ZeroSettings)
  {
    if Stored(schema, rows) == Err(NotFound) then Ok(ZeroSettings) else Stored(schema, rows)
  }

  /**
   * FindUserSettings as the source has it: on ErrNotFound it saves the defaults, but returns the
   * zero Settings that the failed lookup produced, whose id is empty, together with a nil error.
   */
  method FindUserSettingsAsWritten(d: Database) returns (s: Settings, r: Outcome<DbError>)
    modifies d`settings
    ensures old(Stored(d.schema, d.settings)) == Err(NotFound) ==>
      s == ZeroSettings && r == Pass && d.settings == old(d.settings)[SettingsId := EncodeSettings(DefaultUserSettings)]
    ensures old(Stored(d.schema, d.settings)).Ok? ==>
      s == old(Stored(d.schema, d.settings)).value && r == Pass && d.settings == old(d.settings)
    ensures old(Stored(d.schema, d.settings)).Err? && old(Stored(d.schema, d.settings)) != Err(NotFound) ==>
      s == ZeroSettings && r == Fail(old(Stored(d.schema, d.settings)).error) && d.settings == old(d.settings)
    ensures r.Pass? ==> s == old(UserSettingsAsWritten(d.schema, d.settings)).value
    ensures d.settings == old(AfterLookup(d.schema, d.settings))
  {
    var found := FindSettings(d, SettingsId);
    if found == Err(NotFound) {
      r := SaveSettings(d, DefaultUserSettings);
      s := ZeroSettings;
    } else if found.Err? {
      s, r := ZeroSettings, Fail(found.error);
    } else {
      s, r := found.value, Pass;
    }
  }

  /** The settings FindUserSettings is meant to return: the stored ones, or the defaults when there are none. */
  function UserSettings(schema: Schema, rows: map<string, SettingsRow>): (r: Result<Settings, DbError>)
    ensures r.Ok? <==> Stored(schema, rows).Ok? || Stored(schema, rows) == Err(NotFound)
    ensures r.Ok? ==> r.value.id == SettingsId
  {
    if Stored(schema, rows) == Err(NotFound) then Ok(DefaultUserSettings) else Stored(schema, rows)
  }

  /** FindUserSettings, returning the defaults it has just saved; the services use this one. */
  method FindUserSettings(d: Database) returns (s: Settings, r: Outcome<DbError>)
    modifies d`settings
    ensures r.Pass? <==> old(UserSettings(d.schema, d.settings)).Ok?
    ensures r.Pass? ==> s == old(UserSettings(d.schema, d.settings)).value
    ensures r.Fail? ==> r.error == old(Stored(d.schema, d.settings)).error
    ensures d.settings == old(AfterLookup(d.schema, d.settings))
  {
    var found := FindSettings(d, SettingsId);
    if found == Err(NotFound) {
      r := SaveSettings(d, DefaultUserSettings);
      s := DefaultUserSettings;
    } else if found.Err? {
      s, r := ZeroSettings, Fail(found.error);
    } else {
      s, r := found.value, Pass;
    }
  }

  /** After FindUserSettings the store holds exactly the settings it returned. */
  lemma UserSettingsPersist(schema: Schema, rows: map<string, SettingsRow>)
    requires UserSettings(schema, rows).Ok?
    ensures var rows' := if Stored(schema, rows) == Err(NotFound) then rows[SettingsId := EncodeSettings(DefaultUserSettings)] else rows;
      Stored(schema, rows') == UserSettings(schema, rows)
  {
    if Stored(schema, rows) == Err(NotFound) {
      DefaultsRoundTrip();
    }
  }

  /** The user's settings with one field of the query replaced. */
  function WithFilterCompleted(s: Settings, val: bool): (r: Settings)
    ensures r.id == s.id && r.tasksQuery.filterCompleted == val
    ensures r.tasksQuery.(filterCompleted := s.tasksQuery.filterCompleted) == s.tasksQuery
  {
    s.(tasksQuery := s.tasksQuery.(filterCompleted := val))
  }

  /**
   * SetCompletedFilter as the source has it, on top of FindUserSettingsAsWritten: a failed lookup
   * is returned with nothing saved; otherwise the looked-up settings are saved under their own id,
   * which is "" when there was no user row.
   */
  method SetCompletedFilterAsWritten(d: Database, val: bool) returns (r: Outcome<DbError>)
    modifies d`settings
    ensures r.Pass? <==> old(UserSettingsAsWritten(d.schema, d.settings)).Ok?
    ensures r.Fail? ==> d.settings == old(d.settings)
    ensures r.Pass? ==> var s := old(UserSettingsAsWritten(d.schema, d.settings)).value;
      d.settings == old(AfterLookup(d.schema, d.settings))[s.id := EncodeSettings(WithFilterCompleted(s, val))]
    ensures old(Stored(d.schema, d.settings)) == Err(NotFound) ==>
      r == Pass && d.settings == old(d.settings)[SettingsId := EncodeSettings(DefaultUserSettings)]
                                               ["" := EncodeSettings(WithFilterCompleted(ZeroSettings, val))]
  {
    var s;
    s, r := FindUserSettingsAsWritten(d);
    if r.Fail? {
      return;
    }
    r := SaveSettings(d, WithFilterCompleted(s, val));
  }

  /**
   * SetCompletedFilter: only FilterCompleted changes, with one lookup and one save; a failed
   * lookup is returned and nothing is saved.
   */
  method SetCompletedFilter(d: Database, val: bool) returns (r: Outcome<DbError>)
    modifies d`settings
    ensures r.Pass? <==> old(UserSettings(d.schema, d.settings)).Ok?
    ensures r.Fail? ==> d.settings == old(d.settings)
    ensures r.Pass? ==> d.settings == old(d.settings)[SettingsId := EncodeSettings(WithFilterCompleted(old(UserSettings(d.schema, d.settings)).value, val))]
  {
    var s;
    s, r := FindUserSettings(d);
    if r.Fail? {
      return;
    }
    r := SaveSettings(d, WithFilterCompleted(s, val));
  }

  /** After a successful SetCompletedFilter the user's settings read back with the new flag and nothing else changed. */
  lemma SetCompletedFilterReadsBack(schema: Schema, rows: map<string, SettingsRow>, val: bool)
    requires UserSettings(schema, rows).Ok?
    ensures var s := UserSettings(schema, rows).value;
      Stored(schema, rows[SettingsId := EncodeSettings(WithFilterCompleted(s, val))]) == Ok(WithFilterCompleted(s, val))
  {
    var s := UserSettings(schema, rows).value;
    if Stored(schema, rows).Ok? {
      var row := rows[SettingsId];
      assert Some(s.tasksQuery.completedFrom) == DateFromText(row.completedFrom);
      assert Some(s.tasksQuery.completedTo) == DateFromText(row.completedTo);
    }
    SettingsRoundTripExact(WithFilterCompleted(s, val));
  }

  /**
   * On every store without a user row, SetCompletedFilter as written leaves the user row at the
   * defaults, whatever the new flag, because its save goes to another id.
   */
  lemma AsWrittenMissesUserRow(schema: Schema, rows: map<string, SettingsRow>, val: bool)
    requires Stored(schema, rows) == Err(NotFound)
    ensures var s := UserSettingsAsWritten(schema, rows).value;
      s.id != SettingsId &&
      Stored(schema, AfterLookup(schema, rows)[s.id := EncodeSettings(WithFilterCompleted(s, val))]) == Ok(DefaultUserSettings)
  {
    var after := AfterLookup(schema, rows);
    var s := UserSettingsAsWritten(schema, rows).value;
    var rows' := after[s.id := EncodeSettings(WithFilterCompleted(s, val))];
    assert SettingsId in rows' && rows'[SettingsId] == after[SettingsId];
  }

  /** A store fresh from the settings initialisation: a ledger, the full settings table, no rows. */
  method FreshStore() returns (d: Database)
    ensures fresh(d) && SettingsReady(d.schema) && d.settings == map[]
  {
    d := new Database();
    InitMigration(d);
    InitSettingsOnNewStore(d.schema, d.ledger);
    var e := InitSettings(d);
  }

  /** On a fresh store, the first SetCompletedFilter(false) as written leaves the user's settings hiding completed tasks. */
  method FirstFilterChangeAsWritten() returns (stored: Result<Settings, DbError>)
    ensures stored == Ok(DefaultUserSettings) && stored.value.tasksQuery.filterCompleted
  {
    var d := FreshStore();
    var r := SetCompletedFilterAsWritten(d, false);
    stored := FindSettings(d, SettingsId);
    DefaultsRoundTrip();
  }

  /** On a fresh store, the first SetCompletedFilter(false) reaches the user's settings. */
  method FirstFilterChange() returns (stored: Result<Settings, DbError>)
    ensures stored == Ok(WithFilterCompleted(DefaultUserSettings, false)) && !stored.value.tasksQuery.filterCompleted
  {
    var d := FreshStore();
    var r := SetCompletedFilter(d, false);
    stored := FindSettings(d, SettingsId);
    SettingsRoundTripExact(WithFilterCompleted(DefaultUserSettings, false));
  }

  /** The settings ToggleSorting saves: the new column, its direction flipped when it was already the sort column, Desc otherwise. */
  function ToggledSorting(s: Settings, newColumn: GoInt, actDir: GoInt): (r: Settings)
    ensures r.id == s.id && r.tasksQuery.sortColumn == newColumn
    ensures r.tasksQuery.(sortColumn := s.tasksQuery.sortColumn, sortDirection := s.tasksQuery.sortDirection) == s.tasksQuery
    ensures s.tasksQuery.sortColumn != newColumn ==> IsSorted(r, newColumn, Desc)
    ensures s.tasksQuery.sortColumn == newColumn ==> IsSorted(r, newColumn, Flip(actDir))
  {
    var dir := if s.tasksQuery.sortColumn == newColumn then Flip(actDir) else Desc;
    s.(tasksQuery := s.tasksQuery.(sortColumn := newColumn, sortDirection := dir))
  }

  /**
   * Toggling a column with the shown direction, as the task list's header does: the list ends up
   * sorted by that column ascending exactly when IsSorted said it was sorted by it descending,
   * and descending otherwise.
   */
  lemma ToggleByIsSorted(s: Settings, c: GoInt, d: GoInt)
    ensures var r := ToggledSorting(s, c, s.tasksQuery.sortDirection);
      (IsSorted(r, c, Asc) <==> IsSorted(s, c, Desc)) && (IsSorted(r, c, Desc) <==> !IsSorted(s, c, Desc))
      && (IsSorted(r, c, d) ==> d == Asc || d == Desc)
  {
  }

  /** A new column starts descending; toggling it again with its shown direction turns it ascending, and once more descending. */
  lemma ToggleCycle(s: Settings, c: GoInt)
    requires s.tasksQuery.sortColumn != c
    ensures var s1 := ToggledSorting(s, c, s.tasksQuery.sortDirection);
      var s2 := ToggledSorting(s1, c, s1.tasksQuery.sortDirection);
      var s3 := ToggledSorting(s2, c, s2.tasksQuery.sortDirection);
      IsSorted(s1, c, Desc) && IsSorted(s2, c, Asc) && IsSorted(s3, c, Desc) && s3 == s1
  {
  }

  /** Toggling the sort column twice with the shown directions restores a real direction. */
  lemma ToggleTwice(s: Settings)
    requires s.tasksQuery.sortDirection == Desc || s.tasksQuery.sortDirection == Asc
    ensures var c := s.tasksQuery.sortColumn;
      var s1 := ToggledSorting(s, c, s.tasksQuery.sortDirection);
      ToggledSorting(s1, c, s1.tasksQuery.sortDirection) == s
  {
    FlipTwice(s.tasksQuery.sortDirection);
  }

  /** ToggleSorting: one save of the toggled settings, whose error is returned. */
  method ToggleSorting(d: Database, s: Settings, newColumn: GoInt, actDir: GoInt) returns (r: Outcome<DbError>)
    modifies d`settings
    ensures r.Pass? <==> SettingsReady(d.schema)
    ensures d.settings == if r.Pass? then old(d.settings)[s.id := EncodeSettings(ToggledSorting(s, newColumn, actDir))] else old(d.settings)
  {
    r := SaveSettings(d, ToggledSorting(s, newColumn, actDir));
  }

  const PreparedQueryReset: string := "prepared-query-clear"
  const PreparedQueryCompletedYesterday: string := "prepared-query-completed-yesterday"
  const PreparedQueryCompletedToday: string := "prepared-query-completed-today"
  const PreparedQueryCompletedThisWeek: string := "prepared-query-completed-this-week"
  const PreparedQueryCompletedLastTwoWeeks: string := "prepared-query-completed-last-two-weeks"
  const PreparedQueryCompletedLastWeek: string := "prepared-query-completed-last-week"

  /** The names of the "completed ..." presets. */
  const CompletedPresets: set<string> :=
    {PreparedQueryCompletedYesterday, PreparedQueryCompletedToday, PreparedQueryCompletedThisWeek,
     PreparedQueryCompletedLastTwoWeeks, PreparedQueryCompletedLastWeek}

  /** thisMonday: midnight of the Monday of the current week, Sunday counting as its last day. */
  function ThisMonday(now: Time): (r: Time)
    ensures Weekday(r) == 1 && r % SecondsPerDay == 0
    ensures Midnight(now) - 6 * SecondsPerDay <= r <= Midnight(now)
  {
    var offset := 1 - Weekday(now);
    var offset' := if offset > 0 then offset - 7 else offset;
    var r := Midnight(AddDays(now, offset'));
    MondayOffset(now, offset');
    r
  }

  /** Moving by 1 - Weekday(now), or 7 days less, lands on a Monday at most six days back. */
  lemma MondayOffset(now: Time, offset: int)
    requires offset == if 1 - Weekday(now) > 0 then 1 - Weekday(now) - 7 else 1 - Weekday(now)
    ensures Weekday(Midnight(AddDays(now, offset))) == 1
    ensures Midnight(AddDays(now, offset)) == Midnight(now) + offset * SecondsPerDay
    ensures -6 <= offset
  {
    var day := now / SecondsPerDay;
    var m := Midnight(AddDays(now, offset));
    assert AddDays(now, offset) == now + offset * SecondsPerDay;
    assert (now + offset * SecondsPerDay) / SecondsPerDay == day + offset;
    assert (now + offset * SecondsPerDay) % SecondsPerDay == now % SecondsPerDay;
    assert m == now - now % SecondsPerDay + offset * SecondsPerDay;
    assert m / SecondsPerDay == day + offset by {
      assert now - now % SecondsPerDay == day * SecondsPerDay;
      assert m == (day + offset) * SecondsPerDay;
    }
    var w := (day + 1) % 7;
    assert Weekday(now) == w;
    assert (day + offset + 1) % 7 == 1 by {
      assert day + 1 == 7 * ((day + 1) / 7) + w;
      assert day + offset + 1 == 7 * ((day + 1) / 7 + (if offset == 1 - w then 0 else -1)) + 1;
    }
  }

  /** The fields every "completed ..." preset sets: completed tasks shown from `from`, sorted by completion. */
  function CompletedSince(q: TasksQuery, from: Time): (r: TasksQuery)
    ensures !r.filterCompleted && r.filterIncompleted && r.sortColumn == ColumnCompleted && r.completedFrom == from
    ensures r.(filterCompleted := q.filterCompleted, filterIncompleted := q.filterIncompleted,
               sortColumn := q.sortColumn, completedFrom := q.completedFrom) == q
  {
    q.(completedFrom := from, filterIncompleted := true, filterCompleted := false, sortColumn := ColumnCompleted)
  }

  /** The switch of ApplyPreparedQuery on the reset query `q`; an unknown name, the reset one included, leaves it. */
  function Preset(name: string, q: TasksQuery, now: Time): (r: TasksQuery)
    ensures name !in CompletedPresets ==> r == q
  {
    if name == PreparedQueryCompletedYesterday then CompletedSince(q, Midnight(AddDays(now, -1)))
    else if name == PreparedQueryCompletedToday then CompletedSince(q, Midnight(now))
    else if name == PreparedQueryCompletedThisWeek then CompletedSince(q, ThisMonday(now))
    else if name == PreparedQueryCompletedLastTwoWeeks then CompletedSince(q, Midnight(AddDays(now, -14)))
    else if name == PreparedQueryCompletedLastWeek then CompletedSince(q, AddDays(ThisMonday(now), -7))
    else q
  }

  /** Every "completed ..." preset shows completed tasks only, sorted by completion, from a midnight no later than today's. */
  lemma CompletedPresetShape(name: string, q: TasksQuery, now: Time)
    requires name in CompletedPresets
    ensures var r := Preset(name, q, now);
      r == CompletedSince(q, r.completedFrom) && r.completedFrom % SecondsPerDay == 0 && r.completedFrom <= Midnight(now)
  {
    if name == PreparedQueryCompletedYesterday {
      ShiftMidnight(now, -1);
    } else if name == PreparedQueryCompletedLastTwoWeeks {
      ShiftMidnight(now, -14);
    } else if name == PreparedQueryCompletedLastWeek {
      var m := ThisMonday(now);
      assert Midnight(m) == m;
      ShiftMidnight(m, -7);
      assert AddDays(m, -7) == Midnight(AddDays(m, -7));
    }
  }

  /** The start of each preset: yesterday and today at midnight, this and last week's Monday, two weeks back. */
  lemma PresetStarts(q: TasksQuery, now: Time)
    ensures Preset(PreparedQueryCompletedYesterday, q, now).completedFrom == Midnight(now) - SecondsPerDay
    ensures Preset(PreparedQueryCompletedToday, q, now).completedFrom == Midnight(now)
    ensures Preset(PreparedQueryCompletedThisWeek, q, now).completedFrom == ThisMonday(now)
    ensures Preset(PreparedQueryCompletedLastWeek, q, now).completedFrom == ThisMonday(now) - 7 * SecondsPerDay
    ensures Preset(PreparedQueryCompletedLastTwoWeeks, q, now).completedFrom == Midnight(now) - 14 * SecondsPerDay
    ensures Preset(PreparedQueryCompletedLastTwoWeeks, q, now).completedFrom
      < Preset(PreparedQueryCompletedLastWeek, q, now).completedFrom
      < Preset(PreparedQueryCompletedThisWeek, q, now).completedFrom + 1
  {
    ShiftMidnight(now, -1);
    ShiftMidnight(now, -14);
  }

  /** Whole days move the midnight by the same whole days. */
  lemma ShiftMidnight(now: Time, n: int)
    ensures Midnight(AddDays(now, n)) == Midnight(now) + n * SecondsPerDay
  {
    assert (now + n * SecondsPerDay) % SecondsPerDay == now % SecondsPerDay;
  }

  /**
   * ApplyPreparedQuery: a failed lookup is returned; otherwise the reset query goes through the
   * preset switch and is saved, and nil is returned even when that save fails.
   */
  method ApplyPreparedQuery(d: Database, name: string, now: Time, reset: TasksQuery -> TasksQuery) returns (r: Outcome<DbError>)
    modifies d`settings
    ensures r.Pass? <==> old(UserSettings(d.schema, d.settings)).Ok?
    ensures r.Fail? ==> d.settings == old(d.settings)
    ensures r.Pass? ==> var s := old(UserSettings(d.schema, d.settings)).value;
      d.settings == old(d.settings)[SettingsId := EncodeSettings(s.(tasksQuery := Preset(name, reset(s.tasksQuery), now)))]
  {
    var s;
    s, r := FindUserSettings(d);
    if r.Fail? {
      return;
    }
    var q := reset(s.tasksQuery);
    q := Preset(name, q, now);
    var saved := SaveSettings(d, s.(tasksQuery := q));
    r := Pass;
  }

  /**
   * ApplyPreparedQuery as the source has it, on top of FindUserSettingsAsWritten: the preset is
   * saved under the looked-up settings' own id, which is "" when there was no user row.
   */
  method ApplyPreparedQueryAsWritten(d: Database, name: string, now: Time, reset: TasksQuery -> TasksQuery) returns (r: Outcome<DbError>)
    modifies d`settings
    ensures r.Pass? <==> old(UserSettingsAsWritten(d.schema, d.settings)).Ok?
    ensures r.Fail? ==> d.settings == old(d.settings)
    ensures r.Pass? ==> var s := old(UserSettingsAsWritten(d.schema, d.settings)).value;
      d.settings == old(AfterLookup(d.schema, d.settings))[s.id := EncodeSettings(s.(tasksQuery := Preset(name, reset(s.tasksQuery), now)))]
    ensures old(Stored(d.schema, d.settings)) == Err(NotFound) ==>
      d.settings == old(d.settings)[SettingsId := EncodeSettings(DefaultUserSettings)]
                                   ["" := EncodeSettings(Settings("", Preset(name, reset(ZeroQuery), now)))]
  {
    var s;
    s, r := FindUserSettingsAsWritten(d);
    if r.Fail? {
      return;
    }
    var q := reset(s.tasksQuery);
    q := Preset(name, q, now);
    var saved := SaveSettings(d, s.(tasksQuery := q));
    r := Pass;
  }
}
