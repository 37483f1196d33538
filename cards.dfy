// The older card entity, a task with only a title, content, times and a three-level priority (models/cards.go).
module Cards {
  import opened Wrappers
  import opened Strconv
  import opened Clock

  const PriorityLow: GoInt := 0
  const PriorityMedium: GoInt := 1
  const PriorityHigh: GoInt := 2

  const TitleMaxSize: nat := 64

  datatype Card = Card(
    id: string,
    title: string,
    content: string,
    created: Time,
    updated: Time,
    completed: Time,
    priority: GoInt)

  /** EMPTY_CARD */
  const EmptyCard: Card := Card("", "", "", NotCompleted, NotCompleted, NotCompleted, PriorityMedium)

  /** StrToTaskPriority of the card model: the parsed number, or Medium with an error. */
  function StrToTaskPriority(a: string): (r: (GoInt, bool))
    ensures r.1 <==> Atoi(a).None?
    ensures r.1 ==> r.0 == PriorityMedium
    ensures !r.1 ==> Atoi(a) == Some(r.0)
  {
    match Atoi(a)
    case None => (PriorityMedium, true)
    case Some(v) => (v, false)
  }

  /** titleFromContent of cards: the first 64 bytes, line breaks included. */
  function TitleFromContent(content: string): (r: string)
    ensures r <= content
    ensures |r| == if |content| > TitleMaxSize then TitleMaxSize else |content|
  {
    var titleIdx := if |content| > TitleMaxSize then TitleMaxSize else |content|;
    content[..titleIdx]
  }

  /** Create: a new, not completed card with a fresh id, created and updated now. */
  function Create(prototype: Card, newId: string, now: Time): (r: Card)
    ensures r.id == newId && r.created == now && r.updated == now && r.completed == NotCompleted
    ensures r.content == prototype.content && r.priority == prototype.priority
    ensures r.title == if prototype.title == "" then TitleFromContent(prototype.content) else prototype.title
  {
    var title := if prototype.title == "" then TitleFromContent(prototype.content) else prototype.title;
    Card(newId, title, prototype.content, now, now, NotCompleted, prototype.priority)
  }

  /** Card.Update: identity and completion stay with the stored card; title, content and priority come from the change. */
  function Update(c: Card, change: Card, now: Time): (r: Card)
    ensures r.id == c.id && r.created == c.created && r.completed == c.completed && r.updated == now
    ensures r.content == change.content && r.priority == change.priority
    ensures r.title == if change.title == "" then TitleFromContent(change.content) else change.title
  {
    var title := if change.title == "" then TitleFromContent(change.content) else change.title;
    Card(c.id, title, change.content, c.created, now, c.completed, change.priority)
  }

  predicate IsCompleted(c: Card) { c.completed != NotCompleted }

  function Complete(c: Card, now: Time): (r: Card)
    ensures now != NotCompleted ==> IsCompleted(r)
    ensures r == c.(completed := now, updated := now)
  {
    c.(completed := now, updated := now)
  }

  function Uncomplete(c: Card, now: Time): (r: Card)
    ensures !IsCompleted(r)
    ensures r == c.(completed := NotCompleted, updated := now)
  {
    c.(completed := NotCompleted, updated := now)
  }

  /** An edit never changes whether a card is completed, and a new card is never completed. */
  lemma UpdateKeepsCompletion(c: Card, change: Card, prototype: Card, id: string, now: Time)
    ensures IsCompleted(Update(c, change, now)) == IsCompleted(c)
    ensures !IsCompleted(Create(prototype, id, now))
  {
  }
}
