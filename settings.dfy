// Sort columns and directions, the task query a user keeps, and the settings record
// (models/settings.go, with the TasksQuery that the store and the services read).
module Settings {
  import opened Wrappers
  import opened Strconv
  import opened Clock

  const ColumnUndefined: GoInt := 0
  const ColumnCompleted: GoInt := 1
  const ColumnTitle: GoInt := 2
  const ColumnCreated: GoInt := 3
  const ColumnUpdated: GoInt := 4
  const ColumnPriority: GoInt := 5
  // The store orders by these too; they follow the declared columns.
  const ColumnImpact: GoInt := 6
  const ColumnWip: GoInt := 7
  const ColumnPlanned: GoInt := 8
  const ColumnCost: GoInt := 9
  const ColumnValue: GoInt := 10
  const ColumnFun: GoInt := 11

  const DirectionUndefined: GoInt := 0
  const Desc: GoInt := 1
  const Asc: GoInt := 2

  /** ColumnFromString: the parsed number, or ColumnUndefined when the text is not a number. */
  function ColumnFromString(str: string): (r: GoInt)
    ensures Atoi(str).None? ==> r == ColumnUndefined
    ensures Atoi(str).Some? ==> r == Atoi(str).value
  {
    match Atoi(str)
    case None => ColumnUndefined
    case Some(n) => n
  }

  /** DirectionFromString: the parsed number, or DirectionUndefined when the text is not a number. */
  function DirectionFromString(str: string): (r: GoInt)
    ensures Atoi(str).None? ==> r == DirectionUndefined
    ensures Atoi(str).Some? ==> r == Atoi(str).value
  {
    match Atoi(str)
    case None => DirectionUndefined
    case Some(n) => n
  }

  /** Both conversions read back the decimal text of any number. */
  lemma FromStringOfItoa(n: GoInt)
    ensures ColumnFromString(Itoa(n)) == n && DirectionFromString(Itoa(n)) == n
  {
    AtoiItoa(n);
  }

  /** SortDirection.Flip: Desc becomes Asc, and every other value becomes Desc. */
  function Flip(d: GoInt): (r: GoInt)
    ensures r == Asc <==> d == Desc
    ensures r == Asc || r == Desc
  {
    if d == Desc then Asc else Desc
  }

  /** Flipping twice restores exactly the two real directions. */
  lemma FlipTwice(d: GoInt)
    ensures Flip(Flip(d)) == d <==> d == Desc || d == Asc
  {
  }

  /** The filter and sort state of the task list. */
  datatype TasksQuery = TasksQuery(
    filterCompleted: bool,
    filterIncompleted: bool,
    sortColumn: GoInt,
    sortDirection: GoInt,
    completedFrom: Time,
    completedTo: Time,
    filterWip: bool,
    filterNonWip: bool,
    planned: bool,
    nonPlanned: bool,
    tags: seq<string>,
    searchText: string,
    enableLimit: bool,
    limitCount: GoInt)

  /** Go's zero TasksQuery. */
  const ZeroQuery: TasksQuery :=
    TasksQuery(false, false, ColumnUndefined, DirectionUndefined, NotCompleted, NotCompleted,
               false, false, false, false, [], "", false, 0)

  datatype Settings = Settings(id: string, tasksQuery: TasksQuery)

  /** Go's zero Settings. */
  const ZeroSettings: Settings := Settings("", ZeroQuery)

  /** Settings.IsSorted: the list is sorted by exactly this column and direction. */
  predicate IsSorted(s: Settings, c: GoInt, d: GoInt) {
    s.tasksQuery.sortColumn == c && s.tasksQuery.sortDirection == d
  }
}
