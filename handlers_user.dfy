// The filter form of the task list: one posted field changes one part of the user's query,
// which is then saved (handlers/userHandlers.go).
module UserHandlers {
  import opened Wrappers
  import opened Strconv
  import opened Clock
  import opened Settings
  import opened DbCore
  import opened DbSettings
  import opened UserService

  const FilterHideCompleted: string := "completed-filter"
  const FilterHideIncompleted: string := "filter-incompleted"
  const FilterCompletedFrom: string := "filter-completed-from"
  const FilterCompletedTo: string := "filter-completed-to"
  const FilterWip: string := "filter-wip"
  const FilterNonWip: string := "filter-non-wip"
  const FilterPlanned: string := "filter-planned"
  const FilterNonPlanned: string := "filter-non-planned"
  const FilterTags: string := "filter-tags"
  const FilterSearch: string := "filter-search"
  /** The two limit filter names are not among the shown constants; these texts stand in for them. */
  const FilterLimitEnable: string := "filter-limit-enable"
  const FilterLimitCount: string := "filter-limit-count"

  const FilterNames: set<string> := {FilterHideCompleted, FilterHideIncompleted, FilterCompletedFrom, FilterCompletedTo,
    FilterWip, FilterNonWip, FilterPlanned, FilterNonPlanned, FilterTags, FilterSearch, FilterLimitEnable, FilterLimitCount}

  const StatusOK: int := 200
  const StatusBadRequest: int := 400
  const StatusInternalServerError: int := 500

  /** The outcome of one filter post: the new query, the status written, and whether it is saved. */
  datatype FilterChange = FilterChange(query: TasksQuery, status: int, save: bool)

  /** A date field: empty clears the bound, otherwise the text must name a day. */
  function DateField(value: string): (r: Option<Time>)
    ensures value == "" ==> r == Some(NotCompleted)
    ensures r.Some? ==> Midnight(r.value) == r.value
  {
    if value == "" then Some(NotCompleted) else ParseDate(value)
  }

  /** The case of the switch a filter name selects. */
  datatype FilterKind = HideCompleted | HideIncompleted | CompletedFrom | CompletedTo | Wip | NonWip
    | Planned | NonPlanned | Tags | Search | LimitEnable | LimitCount | Unknown

  function KindOf(filterName: string): (k: FilterKind)
    ensures k == Unknown <==> filterName !in FilterNames
  {
    if filterName == FilterHideCompleted then HideCompleted
    else if filterName == FilterHideIncompleted then HideIncompleted
    else if filterName == FilterCompletedFrom then CompletedFrom
    else if filterName == FilterCompletedTo then CompletedTo
    else if filterName == FilterWip then Wip
    else if filterName == FilterNonWip then NonWip
    else if filterName == FilterPlanned then Planned
    else if filterName == FilterNonPlanned then NonPlanned
    else if filterName == FilterTags then Tags
    else if filterName == FilterSearch then Search
    else if filterName == FilterLimitEnable then LimitEnable
    else if filterName == FilterLimitCount then LimitCount
    else Unknown
  }

  /**
   * The switch of PostFilterName on the filter name, given the posted value of the field of that
   * name ("" when it is absent). A checkbox is on when its value is not empty.
   */
  function ApplyFilter(q: TasksQuery, filterName: string, value: string): (r: FilterChange)
    ensures r.save <==> r.status == StatusOK
    ensures !r.save ==> r.query == q
    ensures filterName !in FilterNames ==> r == FilterChange(q, StatusInternalServerError, false)
    ensures Midnight(q.completedFrom) == q.completedFrom ==> Midnight(r.query.completedFrom) == r.query.completedFrom
    ensures Midnight(q.completedTo) == q.completedTo ==> Midnight(r.query.completedTo) == r.query.completedTo
  {
    var on := value != "";
    match KindOf(filterName)
    case HideCompleted => FilterChange(q.(filterCompleted := on), StatusOK, true)
    case HideIncompleted => FilterChange(q.(filterIncompleted := on), StatusOK, true)
    case CompletedFrom =>
      (match DateField(value)
       case None => FilterChange(q, StatusInternalServerError, false)
       case Some(from) => FilterChange(q.(completedFrom := from), StatusOK, true))
    case CompletedTo =>
      (match DateField(value)
       case None => FilterChange(q, StatusInternalServerError, false)
       case Some(to) => FilterChange(q.(completedTo := to), StatusOK, true))
    case Wip => FilterChange(q.(filterWip := on), StatusOK, true)
    case NonWip => FilterChange(q.(filterNonWip := on), StatusOK, true)
    case Planned => FilterChange(q.(planned := on), StatusOK, true)
    case NonPlanned => FilterChange(q.(nonPlanned := on), StatusOK, true)
    case Tags =>
      if value == "" then FilterChange(q, StatusBadRequest, false)
      else FilterChange(q.(tags := q.tags + [value]), StatusOK, true)
    case Search => FilterChange(q.(searchText := value), StatusOK, true)
    case LimitEnable => FilterChange(q.(enableLimit := on), StatusOK, true)
    case LimitCount =>
      if value == "" then FilterChange(q, StatusOK, true)
      else
        (match Atoi(value)
         case None => FilterChange(q, StatusInternalServerError, false)
         case Some(n) =>
           if n < 1 then FilterChange(q, StatusInternalServerError, false)
           else FilterChange(q.(limitCount := n), StatusOK, true))
    case Unknown => FilterChange(q, StatusInternalServerError, false)
  }

  /** Every checkbox filter is set exactly when its posted value is not empty, and nothing else moves. */
  lemma CheckboxFilters(q: TasksQuery, value: string)
    ensures ApplyFilter(q, FilterHideCompleted, value) == FilterChange(q.(filterCompleted := value != ""), StatusOK, true)
    ensures ApplyFilter(q, FilterHideIncompleted, value) == FilterChange(q.(filterIncompleted := value != ""), StatusOK, true)
    ensures ApplyFilter(q, FilterWip, value) == FilterChange(q.(filterWip := value != ""), StatusOK, true)
    ensures ApplyFilter(q, FilterNonWip, value) == FilterChange(q.(filterNonWip := value != ""), StatusOK, true)
    ensures ApplyFilter(q, FilterPlanned, value) == FilterChange(q.(planned := value != ""), StatusOK, true)
    ensures ApplyFilter(q, FilterNonPlanned, value) == FilterChange(q.(nonPlanned := value != ""), StatusOK, true)
    ensures ApplyFilter(q, FilterLimitEnable, value) == FilterChange(q.(enableLimit := value != ""), StatusOK, true)
  {
  }

  /** A tag filter post appends a non-empty tag, and an empty one is a bad request that changes nothing. */
  lemma TagFilter(q: TasksQuery, value: string)
    ensures value == "" ==> ApplyFilter(q, FilterTags, value) == FilterChange(q, StatusBadRequest, false)
    ensures value != "" ==> ApplyFilter(q, FilterTags, value) == FilterChange(q.(tags := q.tags + [value]), StatusOK, true)
  {
  }

  /** A date bound posted as the text of a day becomes that day's midnight; an empty one clears it. */
  lemma DateFilters(q: TasksQuery, t: Time)
    ensures ApplyFilter(q, FilterCompletedFrom, FormatDate(t)).query == q.(completedFrom := Midnight(t))
    ensures ApplyFilter(q, FilterCompletedTo, FormatDate(t)).query == q.(completedTo := Midnight(t))
    ensures ApplyFilter(q, FilterCompletedFrom, "").query == q.(completedFrom := NotCompleted)
    ensures ApplyFilter(q, FilterCompletedTo, "").query == q.(completedTo := NotCompleted)
  {
    ParseFormatDate(t);
    assert FormatDate(t) != "" by {
      assert |Itoa(t / SecondsPerDay)| > 0;
    }
  }

  /** The limit count takes any positive number; zero, a negative number or a non-number is refused. */
  lemma LimitCountFilter(q: TasksQuery, n: GoInt)
    ensures n >= 1 ==> ApplyFilter(q, FilterLimitCount, Itoa(n)) == FilterChange(q.(limitCount := n), StatusOK, true)
    ensures n < 1 ==> ApplyFilter(q, FilterLimitCount, Itoa(n)) == FilterChange(q, StatusInternalServerError, false)
    ensures ApplyFilter(q, FilterLimitCount, "") == FilterChange(q, StatusOK, true)
  {
    AtoiItoa(n);
  }

  /** Posting the same value twice is the same as posting it once, for every filter but the tag list. */
  lemma ApplyFilterIdempotent(q: TasksQuery, filterName: string, value: string)
    requires KindOf(filterName) != Tags
    ensures ApplyFilter(ApplyFilter(q, filterName, value).query, filterName, value) == ApplyFilter(q, filterName, value)
  {
  }

  /** The dates of the user's settings are midnights, whether stored or defaults. */
  lemma UserSettingsAtMidnight(schema: Schema, rows: map<string, SettingsRow>)
    requires UserSettings(schema, rows).Ok?
    ensures var q := UserSettings(schema, rows).value.tasksQuery;
      Midnight(q.completedFrom) == q.completedFrom && Midnight(q.completedTo) == q.completedTo
  {
    if Stored(schema, rows).Ok? {
      var row := rows[SettingsId];
      var s := Stored(schema, rows).value;
      assert Some(s.tasksQuery.completedFrom) == DateFromText(row.completedFrom);
      assert Some(s.tasksQuery.completedTo) == DateFromText(row.completedTo);
    }
  }

  /** User settings with midnight dates read back exactly once saved. */
  lemma UserRowReadsBack(schema: Schema, rows: map<string, SettingsRow>, s: Settings)
    requires SettingsReady(schema) && s.id == SettingsId
    requires Midnight(s.tasksQuery.completedFrom) == s.tasksQuery.completedFrom
    requires Midnight(s.tasksQuery.completedTo) == s.tasksQuery.completedTo
    ensures Stored(schema, rows[SettingsId := EncodeSettings(s)]) == Ok(s)
  {
    SettingsRoundTripExact(s);
  }

  /** A saved filter change reads back exactly from the store. */
  lemma FilterChangeReadsBack(schema: Schema, rows: map<string, SettingsRow>, filterName: string, value: string)
    requires UserSettings(schema, rows).Ok?
    ensures var s := UserSettings(schema, rows).value;
      var ch := ApplyFilter(s.tasksQuery, filterName, value);
      ch.save ==> Stored(schema, AfterLookup(schema, rows)[SettingsId := EncodeSettings(s.(tasksQuery := ch.query))])
                  == Ok(s.(tasksQuery := ch.query))
  {
    var s := UserSettings(schema, rows).value;
    UserSettingsAtMidnight(schema, rows);
    var ch := ApplyFilter(s.tasksQuery, filterName, value);
    if ch.save {
      assert SettingsReady(schema);
      UserRowReadsBack(schema, AfterLookup(schema, rows), s.(tasksQuery := ch.query));
    }
  }

  /**
   * PostFilterName: the user's settings are looked up (a failure is an internal error), the
   * filter change is applied, and a change that calls for it is saved; the status is returned.
   */
  method PostFilterName(d: Database, filterName: string, value: string) returns (status: int)
    modifies d`settings
    ensures old(UserSettings(d.schema, d.settings)).Err? ==> status == StatusInternalServerError && d.settings == old(d.settings)
    ensures old(UserSettings(d.schema, d.settings)).Ok? ==>
      var s := old(UserSettings(d.schema, d.settings)).value;
      var ch := ApplyFilter(s.tasksQuery, filterName, value);
      status == ch.status &&
      d.settings == if ch.save then old(AfterLookup(d.schema, d.settings))[SettingsId := EncodeSettings(s.(tasksQuery := ch.query))]
                    else old(AfterLookup(d.schema, d.settings))
  {
    var s, found := FindUserSettings(d);
    if found.Fail? {
      return StatusInternalServerError;
    }
    var ch := ApplyFilter(s.tasksQuery, filterName, value);
    if !ch.save {
      return ch.status;
    }
    var saved := SaveSettings(d, s.(tasksQuery := ch.query));
    if saved.Fail? {
      return StatusInternalServerError;
    }
    return StatusOK;
  }

  /**
   * PostFilterName as the source has it, on top of FindUserSettingsAsWritten: the change is saved
   * under the looked-up settings' own id, which is "" when there was no user row.
   */
  method PostFilterNameAsWritten(d: Database, filterName: string, value: string) returns (status: int)
    modifies d`settings
    ensures old(UserSettingsAsWritten(d.schema, d.settings)).Err? ==> status == StatusInternalServerError && d.settings == old(d.settings)
    ensures old(UserSettingsAsWritten(d.schema, d.settings)).Ok? ==>
      var s := old(UserSettingsAsWritten(d.schema, d.settings)).value;
      var ch := ApplyFilter(s.tasksQuery, filterName, value);
      status == ch.status &&
      d.settings == if ch.save then old(AfterLookup(d.schema, d.settings))[s.id := EncodeSettings(s.(tasksQuery := ch.query))]
                    else old(AfterLookup(d.schema, d.settings))
    ensures old(Stored(d.schema, d.settings)) == Err(NotFound) ==>
      var ch := ApplyFilter(ZeroQuery, filterName, value);
      ch.save ==> "" in d.settings && d.settings[""] == EncodeSettings(Settings("", ch.query))
  {
    var s, found := FindUserSettingsAsWritten(d);
    if found.Fail? {
      return StatusInternalServerError;
    }
    var ch := ApplyFilter(s.tasksQuery, filterName, value);
    if !ch.save {
      return ch.status;
    }
    var saved := SaveSettings(d, s.(tasksQuery := ch.query));
    if saved.Fail? {
      return StatusInternalServerError;
    }
    return StatusOK;
  }
}
