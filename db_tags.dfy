// The tag catalog and the TasksTags junction table (db/tags.go).
module DbTags {
  import opened Wrappers
  import opened Clock
  import opened DbCore
  import opened DbMigration
  import Sorting

  const TagsMigrationId: string := "add_tags_support"

  /** The tags linked to a task. */
  function TagsOf(links: set<Link>, taskId: string): set<string> {
    set l | l in links && l.0 == taskId :: l.1
  }

  /** initTags / addTagsTable: both tables are created behind one ledger id, so at most once. */
  method AddTagsTable(d: Database) returns (e: Exit)
    modifies d`schema, d`ledger
    ensures !HasColumns(old(d.schema), MigrationTable, ["id"]) ==> e.Panic? && d.schema == old(d.schema) && d.ledger == old(d.ledger)
    ensures HasColumns(old(d.schema), MigrationTable, ["id"]) && TagsMigrationId in old(d.ledger) ==>
      e.Normal? && d.schema == old(d.schema) && d.ledger == old(d.ledger)
    ensures HasColumns(old(d.schema), MigrationTable, MigrationColumns) && TagsMigrationId !in old(d.ledger) ==>
      e.Normal? && d.ledger == old(d.ledger) + {TagsMigrationId}
      && TagsTable in d.schema && TasksTagsTable in d.schema
      && d.schema == old(d.schema)[TagsTable := d.schema[TagsTable]][TasksTagsTable := d.schema[TasksTagsTable]]
      && (TagsTable !in old(d.schema) ==> d.schema[TagsTable] == TagsColumns)
      && (TasksTagsTable !in old(d.schema) ==> d.schema[TasksTagsTable] == TasksTagsColumns)
  {
    var found;
    e, found := MigrationExists(d, TagsMigrationId);
    if e.Panic? || found {
      return;
    }
    CreateTableIfNotExists(d, TagsTable, TagsColumns);
    CreateTableIfNotExists(d, TasksTagsTable, TasksTagsColumns);
    e := RecordMigration(d, TagsMigrationId);
  }

  /** SaveTag: a plain insert, so an id already in the catalog is a primary-key violation. */
  method SaveTag(d: Database, tagId: string, now: Time) returns (r: Outcome<DbError>)
    requires d.Valid()
    modifies d`tags
    ensures d.Valid()
    ensures !HasColumns(d.schema, TagsTable, TagsColumns) ==> r == Fail(SchemaError(TagsTable))
    ensures HasColumns(d.schema, TagsTable, TagsColumns) && tagId in old(d.tags) ==> r.Fail? && r.error.ConstraintFailed?
    ensures r.Pass? <==> HasColumns(d.schema, TagsTable, TagsColumns) && tagId !in old(d.tags)
    ensures d.tags == if r.Pass? then old(d.tags)[tagId := now] else old(d.tags)
  {
    if !HasColumns(d.schema, TagsTable, TagsColumns) {
      return Fail(SchemaError(TagsTable));
    }
    if tagId in d.tags {
      return Fail(ConstraintFailed("UNIQUE constraint failed: tags.id"));
    }
    d.tags := d.tags[tagId := now];
    return Pass;
  }

  /** AddTagToTask: fails for a link already present and, through the foreign keys, for an unknown task or tag. */
  method AddTagToTask(d: Database, taskId: string, tagId: string) returns (r: Outcome<DbError>)
    requires d.Valid()
    modifies d`tasksTags
    ensures d.Valid()
    ensures !HasColumns(d.schema, TasksTagsTable, TasksTagsColumns) ==> r == Fail(SchemaError(TasksTagsTable))
    ensures r.Pass? <==>
      (HasColumns(d.schema, TasksTagsTable, TasksTagsColumns)
       && (taskId, tagId) !in old(d.tasksTags) && taskId in d.tasks && tagId in d.tags)
    ensures d.tasksTags == if r.Pass? then old(d.tasksTags) + {(taskId, tagId)} else old(d.tasksTags)
  {
    if !HasColumns(d.schema, TasksTagsTable, TasksTagsColumns) {
      return Fail(SchemaError(TasksTagsTable));
    }
    if (taskId, tagId) in d.tasksTags {
      return Fail(ConstraintFailed("UNIQUE constraint failed: TasksTags.task_id, TasksTags.tag_id"));
    }
    if taskId !in d.tasks || tagId !in d.tags {
      return Fail(ConstraintFailed("FOREIGN KEY constraint failed"));
    }
    d.tasksTags := d.tasksTags + {(taskId, tagId)};
    return Pass;
  }

  /** deleteAllTagsFromTask: removes every link of the task and no other. */
  method DeleteAllTagsFromTask(d: Database, taskId: string) returns (r: Outcome<DbError>)
    modifies d`tasksTags
    ensures r.Pass? <==> HasColumns(d.schema, TasksTagsTable, TasksTagsColumns)
    ensures r.Fail? ==> r.error == SchemaError(TasksTagsTable) && d.tasksTags == old(d.tasksTags)
    ensures r.Pass? ==> d.tasksTags == set l | l in old(d.tasksTags) && l.0 != taskId
  {
    if !HasColumns(d.schema, TasksTagsTable, TasksTagsColumns) {
      return Fail(SchemaError(TasksTagsTable));
    }
    d.tasksTags := set l | l in d.tasksTags && l.0 != taskId;
    return Pass;
  }

  /** DeleteTagFromTask: removes exactly that link; an absent link is ErrNotFound and changes nothing. */
  method DeleteTagFromTask(d: Database, taskId: string, tagId: string) returns (r: Outcome<DbError>)
    requires d.Valid()
    modifies d`tasksTags
    ensures d.Valid()
    ensures !HasColumns(d.schema, TasksTagsTable, TasksTagsColumns) ==> r == Fail(SchemaError(TasksTagsTable))
    ensures HasColumns(d.schema, TasksTagsTable, TasksTagsColumns) && (taskId, tagId) !in old(d.tasksTags) ==> r == Fail(NotFound)
    ensures r.Pass? <==> HasColumns(d.schema, TasksTagsTable, TasksTagsColumns) && (taskId, tagId) in old(d.tasksTags)
    ensures d.tasksTags == if r.Pass? then old(d.tasksTags) - {(taskId, tagId)} else old(d.tasksTags)
  {
    if !HasColumns(d.schema, TasksTagsTable, TasksTagsColumns) {
      return Fail(SchemaError(TasksTagsTable));
    }
    if (taskId, tagId) !in d.tasksTags {
      return Fail(NotFound);
    }
    d.tasksTags := d.tasksTags - {(taskId, tagId)};
    return Pass;
  }

  /** A task's tags grow by one link at a time. */
  lemma TagsOfAdd(done: set<Link>, l: Link, taskId: string)
    requires l !in done
    ensures l.0 == taskId ==> l.1 !in TagsOf(done, taskId) && TagsOf(done + {l}, taskId) == TagsOf(done, taskId) + {l.1}
    ensures l.0 != taskId ==> TagsOf(done + {l}, taskId) == TagsOf(done, taskId)
  {
    if l.0 == taskId {
      assert l.1 in TagsOf(done + {l}, taskId);
    }
  }

  /** TaskTags: every tag linked to the task, once each; an unknown task has none. */
  method TaskTags(d: Database, taskId: string) returns (r: Result<seq<string>, DbError>)
    ensures !HasColumns(d.schema, TasksTagsTable, TasksTagsColumns) ==> r == Err(SchemaError(TasksTagsTable))
    ensures HasColumns(d.schema, TasksTagsTable, TasksTagsColumns) ==>
      r.Ok? && multiset(r.value) == multiset(TagsOf(d.tasksTags, taskId))
  {
    if !HasColumns(d.schema, TasksTagsTable, TasksTagsColumns) {
      return Err(SchemaError(TasksTagsTable));
    }
    var rows := d.tasksTags;
    var tags: seq<string> := [];
    while rows != {}
      invariant rows <= d.tasksTags
      invariant multiset(tags) == multiset(TagsOf(d.tasksTags - rows, taskId))
      decreases |rows|
    {
      var l :| l in rows;
      TagsOfAdd(d.tasksTags - rows, l, taskId);
      assert d.tasksTags - (rows - {l}) == (d.tasksTags - rows) + {l};
      if l.0 == taskId {
        tags := tags + [l.1];
      }
      rows := rows - {l};
    }
    return Ok(tags);
  }

  /** The requested tasks that have at least one tag. */
  function TaggedAmong(links: set<Link>, taskIds: seq<string>): set<string> {
    set l | l in links && l.0 in taskIds :: l.0
  }

  /** The loop state of TasksTags: the links in done, grouped by requested task. */
  ghost predicate Grouped(result: map<string, seq<string>>, done: set<Link>, taskIds: seq<string>) {
    result.Keys == TaggedAmong(done, taskIds)
    && forall id | id in result :: multiset(result[id]) == multiset(TagsOf(done, id))
  }

  /** Appending one more link to its task's group keeps the grouping exact. */
  lemma GroupStep(result: map<string, seq<string>>, done: set<Link>, l: Link, taskIds: seq<string>)
    requires l !in done && Grouped(result, done, taskIds)
    ensures var before := if l.0 in result then result[l.0] else [];
      Grouped(if l.0 in taskIds then result[l.0 := before + [l.1]] else result, done + {l}, taskIds)
  {
    forall id ensures TagsOf(done + {l}, id) == if l.0 == id then TagsOf(done, id) + {l.1} else TagsOf(done, id) {
      TagsOfAdd(done, l, id);
    }
    TagsOfAdd(done, l, l.0);
  }

  /**
   * TasksTags: for each requested task with at least one tag, its tags, once each; the empty
   * request returns the empty map without a query.
   */
  method TasksTags(d: Database, taskIds: seq<string>) returns (r: Result<map<string, seq<string>>, DbError>)
    ensures |taskIds| == 0 ==> r == Ok(map[])
    ensures |taskIds| > 0 && !HasColumns(d.schema, TasksTagsTable, TasksTagsColumns) ==> r == Err(SchemaError(TasksTagsTable))
    ensures |taskIds| > 0 && HasColumns(d.schema, TasksTagsTable, TasksTagsColumns) ==>
      r.Ok? && r.value.Keys == TaggedAmong(d.tasksTags, taskIds)
      && (forall id | id in r.value :: multiset(r.value[id]) == multiset(TagsOf(d.tasksTags, id)))
  {
    if |taskIds| == 0 {
      return Ok(map[]);
    }
    if !HasColumns(d.schema, TasksTagsTable, TasksTagsColumns) {
      return Err(SchemaError(TasksTagsTable));
    }
    var rows := d.tasksTags;
    var result: map<string, seq<string>> := map[];
    while rows != {}
      invariant rows <= d.tasksTags
      invariant Grouped(result, d.tasksTags - rows, taskIds)
      decreases |rows|
    {
      var l :| l in rows;
      GroupStep(result, d.tasksTags - rows, l, taskIds);
      assert d.tasksTags - (rows - {l}) == (d.tasksTags - rows) + {l};
      if l.0 in taskIds {
        var before := if l.0 in result then result[l.0] else [];
        result := result[l.0 := before + [l.1]];
      }
      rows := rows - {l};
    }
    return Ok(result);
  }

  /** Every id in the catalog, with its creation time as the descending sort key. */
  function CreatedDescending(created: map<string, Time>): string -> real {
    (id: string) => if id in created then -(created[id] as real) else 0.0
  }

  /** Tags: the whole catalog, newest first. */
  method Tags(d: Database) returns (r: Result<seq<string>, DbError>)
    ensures !HasColumns(d.schema, TagsTable, TagsColumns) ==> r == Err(SchemaError(TagsTable))
    ensures HasColumns(d.schema, TagsTable, TagsColumns) ==>
      r.Ok? && multiset(r.value) == multiset(d.tags.Keys)
      && forall i, j :: 0 <= i < j < |r.value| ==> r.value[i] in d.tags && r.value[j] in d.tags && d.tags[r.value[i]] >= d.tags[r.value[j]]
  {
    if !HasColumns(d.schema, TagsTable, TagsColumns) {
      return Err(SchemaError(TagsTable));
    }
    var ids := Sorting.Enumerate(d.tags.Keys);
    var key := CreatedDescending(d.tags);
    var sorted := Sorting.SortBy(ids, key);
    forall i, j | 0 <= i < j < |sorted| ensures sorted[i] in d.tags && sorted[j] in d.tags && d.tags[sorted[i]] >= d.tags[sorted[j]] {
      assert sorted[i] in multiset(sorted) && sorted[j] in multiset(sorted);
      assert key(sorted[i]) <= key(sorted[j]);
    }
    return Ok(sorted);
  }
}
