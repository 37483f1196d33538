// The task entity and its value rules (models/tasks.go).
module Tasks {
  import opened Wrappers
  import opened Strconv
  import opened Clock
  import Strs

  type TaskTag = string

  const EmptyTag: TaskTag := ""

  predicate IsEmptyTag(t: TaskTag) { t == EmptyTag }

  const PriorityLow: GoInt := 0
  const PriorityMedium: GoInt := 1
  const PriorityHigh: GoInt := 2
  const PriorityUrgent: GoInt := 3

  const ImpactSlight: GoInt := 0
  const ImpactLow: GoInt := 1
  const ImpactModerate: GoInt := 2
  const ImpactConsiderable: GoInt := 3
  const ImpactHigh: GoInt := 4

  const CostXS: GoInt := 0
  const CostS: GoInt := 1
  const CostM: GoInt := 2
  const CostL: GoInt := 3
  const CostXL: GoInt := 4
  const CostXXL: GoInt := 5

  const FunS: GoInt := 0
  const FunM: GoInt := 1
  const FunL: GoInt := 2
  const FunXL: GoInt := 3

  const TitleMaxSize: nat := 64

  /** A task. Strings hold one character per byte; Value, a float32 in Go, is kept opaque. */
  datatype Task = Task(
    id: string,
    title: string,
    content: string,
    created: Time,
    updated: Time,
    completed: Time,
    priority: GoInt,
    wip: bool,
    planned: bool,
    impact: GoInt,
    cost: GoInt,
    fun: GoInt,
    value: real,
    tags: seq<TaskTag>)

  /** EMPTY_TASK: the zero task with the middle priority, impact, cost and fun. */
  const EmptyTask: Task :=
    Task("", "", "", NotCompleted, NotCompleted, NotCompleted, PriorityMedium, false, false,
         ImpactModerate, CostM, FunM, 0.0, [])

  /** The value of an enum conversion and whether strconv.Atoi reported an error. */
  datatype Conversion = Conversion(value: GoInt, failed: bool)

  function StrToTaskPriority(a: string): (r: Conversion)
    ensures r.failed <==> Atoi(a).None?
    ensures r.failed ==> r.value == PriorityMedium
    ensures !r.failed ==> Atoi(a) == Some(r.value)
  {
    match Atoi(a)
    case None => Conversion(PriorityMedium, true)
    case Some(v) => Conversion(v, false)
  }

  function StrToImpact(a: string): (r: Conversion)
    ensures r.failed <==> Atoi(a).None?
    ensures r.failed ==> r.value == ImpactModerate
    ensures !r.failed ==> Atoi(a) == Some(r.value)
  {
    match Atoi(a)
    case None => Conversion(ImpactModerate, true)
    case Some(v) => Conversion(v, false)
  }

  /** The generic StrToEnum, which falls back to 0. */
  function StrToEnum(a: string): (r: Conversion)
    ensures r.failed <==> Atoi(a).None?
    ensures r.failed ==> r.value == 0
    ensures !r.failed ==> Atoi(a) == Some(r.value)
  {
    match Atoi(a)
    case None => Conversion(0, true)
    case Some(v) => Conversion(v, false)
  }

  /** The three conversions read back the decimal text of any Go int. */
  lemma ConversionsReadItoa(n: GoInt)
    ensures StrToTaskPriority(Itoa(n)) == Conversion(n, false)
    ensures StrToImpact(Itoa(n)) == Conversion(n, false)
    ensures StrToEnum(Itoa(n)) == Conversion(n, false)
  {
    AtoiItoa(n);
  }

  /** Reduce lowers a priority by one step; Low and values outside the enum stay as they are. */
  function Reduce(p: GoInt): (r: GoInt)
    ensures r <= p
    ensures PriorityLow < p <= PriorityUrgent ==> r == p - 1
    ensures !(PriorityLow < p <= PriorityUrgent) ==> r == p
  {
    if p == PriorityUrgent then PriorityHigh
    else if p == PriorityHigh then PriorityMedium
    else if p == PriorityMedium then PriorityLow
    else p
  }

  /** Three reductions bring every priority of the enum down to Low, and Low is a fixed point. */
  lemma ReduceReachesLow(p: GoInt)
    requires PriorityLow <= p <= PriorityUrgent
    ensures Reduce(Reduce(Reduce(p))) == PriorityLow
    ensures Reduce(PriorityLow) == PriorityLow
  {
  }

  /** One cutting step of titleFromContent: `content` up to the first `pat` in `result`, if there is one. */
  function CutAt(content: string, result: string, pat: string): (r: string)
    requires result <= content
    ensures r <= result
  {
    var i := Strs.Index(result, pat);
    if i != -1 then content[..i] else result
  }

  /** Cutting at a character leaves a prefix without it, ending just before its first occurrence. */
  lemma CutAtChar(content: string, result: string, c: char)
    requires result <= content
    ensures c !in CutAt(content, result, [c])
    ensures |CutAt(content, result, [c])| < |result| ==> content[|CutAt(content, result, [c])|] == c
  {
    Strs.IndexOfChar(result, c);
  }

  /** A text without '\n' holds no "\r\n", so that step never cuts. */
  lemma CutAtCrLfNoop(content: string, result: string)
    requires result <= content && '\n' !in result
    ensures CutAt(content, result, "\r\n") == result
  {
    Strs.IndexNeedsEveryChar(result, "\r\n", 1);
  }

  /** titleFromContent: at most the first 64 bytes, cut at the first "\n", "\r\n" or "\r". */
  function TitleFromContent(content: string): (r: string)
    ensures |r| <= TitleMaxSize && r <= content
    ensures '\n' !in r && '\r' !in r
    ensures |r| < |content| && |r| < TitleMaxSize ==> content[|r|] == '\n' || content[|r|] == '\r'
  {
    var titleIdx := if |content| > TitleMaxSize then TitleMaxSize else |content|;
    var result := content[..titleIdx];
    var result1 := CutAt(content, result, "\n");
    CutAtChar(content, result, '\n');
    CutAtCrLfNoop(content, result1);
    var result2 := CutAt(content, result1, "\r\n");
    CutAtChar(content, result2, '\r');
    CutAt(content, result2, "\r")
  }

  /** A line of at most 64 bytes is its own title; in particular the empty content gives the empty title. */
  lemma ShortLineIsItsOwnTitle(content: string)
    requires |content| <= TitleMaxSize && '\n' !in content && '\r' !in content
    ensures TitleFromContent(content) == content
  {
  }

  predicate IsCompleted(t: Task) { t.completed != NotCompleted }

  function Complete(t: Task, now: Time): (r: Task)
    ensures now != NotCompleted ==> IsCompleted(r)
    ensures r == t.(completed := now, updated := now)
  {
    t.(completed := now, updated := now)
  }

  function Uncomplete(t: Task, now: Time): (r: Task)
    ensures !IsCompleted(r)
    ensures r == t.(completed := NotCompleted, updated := now)
  {
    t.(completed := NotCompleted, updated := now)
  }

  /** AsNewTask: a fresh id and creation time; the title is derived only when it is empty. */
  function AsNewTask(t: Task, newId: string, now: Time): (r: Task)
    ensures t.title != "" ==> r.title == t.title
    ensures t.title == "" ==> r.title == TitleFromContent(t.content)
    ensures r == t.(title := r.title, id := newId, created := now)
  {
    var titled := if t.title == "" then t.(title := TitleFromContent(t.content)) else t;
    titled.(id := newId, created := now)
  }

  /**
   * Update: the stored task `c` takes every field of `change` except its identity (id, created),
   * the update time, and its completion time when both sides are completed.
   */
  function Update(c: Task, change: Task, now: Time): (r: Task)
    ensures r.id == c.id && r.created == c.created && r.updated == now
    ensures r.title == if change.title == "" then TitleFromContent(change.content) else change.title
    ensures r.content == change.content && r.priority == change.priority && r.wip == change.wip
    ensures r.planned == change.planned && r.impact == change.impact && r.cost == change.cost
    ensures r.fun == change.fun && r.value == change.value && r.tags == change.tags
    ensures IsCompleted(c) && IsCompleted(change) ==> r.completed == c.completed
    ensures !(IsCompleted(c) && IsCompleted(change)) ==> r.completed == change.completed
  {
    var change' := if change.title == "" then change.(title := TitleFromContent(change.content)) else change;
    var completed := if !IsCompleted(c) || !IsCompleted(change') then change'.completed else c.completed;
    Task(c.id, change'.title, change'.content, c.created, now, completed, change'.priority, change'.wip,
         change'.planned, change'.impact, change'.cost, change'.fun, change'.value, change'.tags)
  }

  /** The change decides whether the result is completed; an edit never moves an existing completion time. */
  lemma UpdateCompletion(c: Task, change: Task, now: Time)
    ensures IsCompleted(Update(c, change, now)) <==> IsCompleted(change)
    ensures IsCompleted(c) && IsCompleted(Update(c, change, now)) ==> Update(c, change, now).completed == c.completed
  {
  }

  /** Applying the same change twice is the same as applying it once. */
  lemma UpdateIdempotent(c: Task, change: Task, now: Time)
    ensures Update(Update(c, change, now), change, now) == Update(c, change, now)
  {
  }

  predicate IsEmpty(t: Task) {
    t.title == EmptyTask.title && t.content == EmptyTask.content && t.priority == EmptyTask.priority
    && t.impact == EmptyTask.impact && t.cost == EmptyTask.cost && t.fun == EmptyTask.fun
    && t.value == EmptyTask.value && !t.wip && !t.planned && |t.tags| == 0 && t.completed == NotCompleted
  }

  /** EMPTY_TASK is empty whatever its id and times, and an empty task is never completed. */
  lemma EmptyTaskIsEmpty(t: Task)
    ensures IsEmpty(EmptyTask.(id := t.id, created := t.created, updated := t.updated))
    ensures IsEmpty(t) ==> !IsCompleted(t)
  {
  }
}
